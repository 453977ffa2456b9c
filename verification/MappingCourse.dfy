// What a list of mappings does to objects, write by write, and when that reaches the objects of the
// source. packages/mapping-engine/src/evaluator.ts is proved to follow it in MappingEvaluator.
module MappingCourse {
  import opened Common
  import opened MappingObjects
  import opened MappingRules

  // The source as it was, read at each path.
  ghost function Snapshot(mem: Memory, source: Value): (look: imap<Path, Value>)
    ensures forall p: Path :: p in look
  {
    imap p: Path | true :: Read(mem, source, p)
  }

  lemma {:induction false} ReadSame(mem: Memory, later: Memory, v: Value, p: Path)
    requires Closed(mem) && ValueIn(v, mem) && forall n :: n in mem ==> n in later && later[n] == mem[n]
    ensures Read(later, v, p) == Read(mem, v, p) && ValueIn(Read(mem, v, p), mem)
    decreases |p|
  {
    if p != [] && v.Ref? && p[0] in mem[v.obj] {
      assert ValueIn(mem[v.obj][p[0]], mem);
      ReadSame(mem, later, mem[v.obj][p[0]], p[1..]);
    }
  }

  // What the output holds without following is what was there before.
  ghost predicate LeavesIn(tree: Tree, mem: Memory) {
    forall q :: SharesAt(tree, q) ==> Get(tree, q).value.value.obj in mem
  }

  // The source is as it was, and the output stands for its tree.
  ghost predicate Faithful(b: Build, out: Obj, mem: Memory) {
    && Closed(mem) && Private(b, out, mem.Keys) && LeavesIn(b.tree, mem)
    && forall n :: n in mem ==> b.mem[n] == mem[n]
  }

  // What a derivation returns is taken to exist beforehand.
  ghost predicate DerivesIn(ctx: Context, mem: Memory) {
    forall fn, args :: fn in ctx.derives ==> ValueIn(ctx.derives[fn](args), mem)
  }

  // The object an effect writes, of those that were there when it was applied.
  ghost function WrittenBy(mem: Memory, out: Obj, e: Effect): set<Obj> {
    if e.Write? then Written(mem, out, e.target) else {}
  }

  ghost predicate EffectClear(tree: Tree, e: Effect) {
    e.Write? ==> Clear(tree, e.target)
  }

  function StopOf(e: Effect): Option<Stop> {
    match e
    case Skip => None
    case Write(target, _) => if target == [] then Some(EmptyTarget) else None
    case Halt(stop) => Some(stop)
  }

  lemma SharesAfter(tree: Tree, p: Path, v: Value, q: Path)
    requires p != [] && SharesAt(Set(tree, p, Leaf(v)), q)
    ensures if q == p then Get(Set(tree, p, Leaf(v)), q) == Some(Leaf(v))
            else Get(Set(tree, p, Leaf(v)), q) == Get(tree, q)
  {
    if q < p {
      SetAbove(tree, p, Leaf(v), q);
    } else if p <= q {
      GetAfterSet(tree, p, Leaf(v), q[|p|..]);
      assert p + q[|p|..] == q;
    } else {
      SetElsewhere(tree, p, Leaf(v), q);
    }
  }

  lemma LeavesStayIn(tree: Tree, p: Path, v: Value, mem: Memory)
    requires p != [] && LeavesIn(tree, mem) && ValueIn(v, mem)
    ensures LeavesIn(Set(tree, p, Leaf(v)), mem)
  {
    forall q | SharesAt(Set(tree, p, Leaf(v)), q)
      ensures Get(Set(tree, p, Leaf(v)), q).value.value.obj in mem
    {
      SharesAfter(tree, p, v, q);
      assert q != p ==> SharesAt(tree, q);
    }
  }

  // ----- write by write -----

  // What an effect does to the objects: the one write of setPath, or nothing.
  ghost predicate Moves(mem: Memory, e: Effect, made: seq<Obj>, after: Memory, out: Obj) {
    if e.Write? && e.target != [] then
      var (d, k) := Reach(mem, out, e.target);
      Stored(mem, after, d, made, e.target, k, e.value)
    else made == [] && after == mem
  }

  datatype Move = Move(made: seq<Obj>, after: Memory)

  // One evaluation: what it was given, the output it made, and its moves so far.
  datatype Evaluation = Evaluation(
    source: Value, ms: seq<Mapping>, ctx: Context, mem: Memory, out: Obj, course: seq<Move>)

  // What every object holds before mapping j.
  ghost function MemAt(ev: Evaluation, j: nat): Memory
    requires j <= |ev.course|
  {
    if j == 0 then ev.mem[ev.out := map[]] else ev.course[j - 1].after
  }

  // What mapping j does, reading the source as it then is.
  ghost function EffectAt(ev: Evaluation, j: nat): Effect
    requires j <= |ev.course| && j < |ev.ms|
  {
    EffectOf(Snapshot(MemAt(ev, j), ev.source), ev.ctx, ev.ms[j])
  }

  // Mapping j did not stop, and move j is its own.
  ghost predicate MovedAt(ev: Evaluation, j: nat)
    requires j < |ev.course| <= |ev.ms|
  {
    && StopOf(EffectAt(ev, j)) == None
    && Moves(MemAt(ev, j), EffectAt(ev, j), ev.course[j].made, ev.course[j].after, ev.out)
  }

  // The moves are the mappings' own, in their order.
  ghost predicate Follows(ev: Evaluation) {
    && ev.out !in ev.mem && |ev.course| <= |ev.ms|
    && forall j :: 0 <= j < |ev.course| ==> MovedAt(ev, j)
  }

  // The moves are all there are: the list is done, or its next mapping stops it.
  ghost predicate Complete(ev: Evaluation, r: Result<Obj, Stop>) {
    match r
    case Ok(out) => out == ev.out && |ev.course| == |ev.ms|
    case Err(stop) => |ev.course| < |ev.ms| && StopOf(EffectAt(ev, |ev.course|)) == Some(stop)
  }

  // What the source was when the evaluation began, closed under references.
  ghost predicate Given(ev: Evaluation) {
    Closed(ev.mem) && ValueIn(ev.source, ev.mem) && DerivesIn(ev.ctx, ev.mem)
  }

  // Mapping j writes an object that was there before.
  ghost predicate WritesSourceAt(ev: Evaluation, j: nat) {
    && j < |ev.course| && j < |ev.ms|
    && WrittenBy(MemAt(ev, j), ev.out, EffectAt(ev, j)) * ev.mem.Keys != {}
  }

  ghost function Look(ev: Evaluation): (look: imap<Path, Value>)
    ensures forall p: Path :: p in look
  {
    Snapshot(ev.mem, ev.source)
  }

  // ----- as long as the source is untouched -----

  // Before mapping j the output stands for the tree the first j mappings mean.
  ghost predicate StandsFor(ev: Evaluation, j: nat, b: Build) {
    && j <= |ev.course| && j <= |ev.ms|
    && b.mem == MemAt(ev, j) && Faithful(b, ev.out, ev.mem)
    && Steps(Look(ev), ev.ctx, ev.ms[..j], Branch(map[])) == Ok(b.tree)
  }

  lemma SameLook(ev: Evaluation, j: nat, b: Build)
    requires Given(ev) && StandsFor(ev, j, b)
    ensures Snapshot(MemAt(ev, j), ev.source) == Look(ev)
  {
    forall p: Path
      ensures Read(MemAt(ev, j), ev.source, p) == Read(ev.mem, ev.source, p)
    {
      ReadSame(ev.mem, MemAt(ev, j), ev.source, p);
    }
  }

  // What a mapping writes was there before.
  lemma {:induction false} EffectValueIn(mem: Memory, source: Value, ctx: Context, m: Mapping)
    requires Closed(mem) && ValueIn(source, mem) && DerivesIn(ctx, mem)
    ensures var e := EffectOf(Snapshot(mem, source), ctx, m); e.Write? ==> ValueIn(e.value, mem)
    decreases m
  {
    match m
    case Direct(from, _) => ReadSame(mem, mem, source, from);
    case Conditional(_, _, onMatch, otherwise) =>
      EffectValueIn(mem, source, ctx, onMatch);
      if otherwise.Some? {
        EffectValueIn(mem, source, ctx, otherwise.value);
      }
    case _ =>
  }

  // Mapping j writes an object of the source exactly when it writes below a shared place.
  lemma WritesSourceHere(ev: Evaluation, j: nat, b: Build)
    requires Given(ev) && j < |ev.ms| && StandsFor(ev, j, b)
    ensures WrittenBy(MemAt(ev, j), ev.out, EffectAt(ev, j)) * ev.mem.Keys != {} <==>
            WritesBelowShared(Look(ev), ev.ctx, ev.ms, j)
  {
    SameLook(ev, j, b);
    WritesInSource(b, EffectAt(ev, j), ev.out, ev.mem);
  }

  lemma MoveStandsFor(ev: Evaluation, j: nat, b: Build) returns (next: Build)
    requires Given(ev) && Follows(ev) && j < |ev.course| && StandsFor(ev, j, b) && !WritesSourceAt(ev, j)
    ensures StandsFor(ev, j + 1, next)
  {
    var e, move := EffectAt(ev, j), ev.course[j];
    assert MovedAt(ev, j);
    SameLook(ev, j, b);
    WritesInSource(b, e, ev.out, ev.mem);
    StepsNext(Look(ev), ev.ctx, ev.ms, j);
    if e.Write? {
      EffectValueIn(ev.mem, ev.source, ev.ctx, ev.ms[j]);
      next := StoredStandsFor(b, ev.out, ev.mem.Keys, move.after, move.made, e.target, e.value);
      LeavesStayIn(b.tree, e.target, e.value, ev.mem);
    } else {
      next := b;
    }
  }

  lemma StartStandsFor(ev: Evaluation) returns (b: Build)
    requires Given(ev) && ev.out !in ev.mem
    ensures StandsFor(ev, 0, b)
  {
    b := Build(Branch(map[]), map[[] := ev.out], ev.mem[ev.out := map[]]);
    StartsFaithful(ev.out, ev.mem);
    assert ev.ms[..0] == [];
  }

  lemma {:induction false} StandsForBefore(ev: Evaluation, j: nat) returns (b: Build)
    requires Given(ev) && Follows(ev) && j <= |ev.course|
    requires forall i :: 0 <= i < j ==> !WritesSourceAt(ev, i)
    ensures StandsFor(ev, j, b)
    decreases j
  {
    if j == 0 {
      b := StartStandsFor(ev);
    } else {
      var before := StandsForBefore(ev, j - 1);
      b := MoveStandsFor(ev, j - 1, before);
    }
  }

  // ----- when the source is written -----

  lemma {:induction false} FirstWriteOfSource(ev: Evaluation, n: nat) returns (j: nat)
    requires exists i :: 0 <= i < n && WritesSourceAt(ev, i)
    ensures j < n && WritesSourceAt(ev, j) && forall i :: 0 <= i < j ==> !WritesSourceAt(ev, i)
  {
    if exists i :: 0 <= i < n - 1 && WritesSourceAt(ev, i) {
      j := FirstWriteOfSource(ev, n - 1);
    } else {
      j := n - 1;
    }
  }

  // An object that was there before is written if and only if some mapping, reached without a
  // stop, writes below a place where the tree so far holds one.
  lemma SourceWrittenIff(ev: Evaluation, r: Result<Obj, Stop>)
    requires Given(ev) && Follows(ev) && Complete(ev, r)
    ensures (exists j :: WritesSourceAt(ev, j)) <==> (exists i :: WritesBelowShared(Look(ev), ev.ctx, ev.ms, i))
  {
    if exists j :: WritesSourceAt(ev, j) {
      var j := FirstWriteOfSource(ev, |ev.course|);
      var b := StandsForBefore(ev, j);
      WritesSourceHere(ev, j, b);
    } else {
      forall i: nat
        ensures !WritesBelowShared(Look(ev), ev.ctx, ev.ms, i)
      {
        UntouchedNotBelow(ev, r, i);
      }
    }
  }

  lemma UntouchedNotBelow(ev: Evaluation, r: Result<Obj, Stop>, i: nat)
    requires Given(ev) && Follows(ev) && Complete(ev, r)
    requires forall j :: !WritesSourceAt(ev, j)
    ensures !WritesBelowShared(Look(ev), ev.ctx, ev.ms, i)
  {
    if i <= |ev.course| && i < |ev.ms| {
      var b := StandsForBefore(ev, i);
      WritesSourceHere(ev, i, b);
      NoWriteAtStop(ev, r, i);
    } else if i < |ev.ms| {
      var b := StandsForBefore(ev, |ev.course|);
      StoppedBefore(ev, r, b, i);
    }
  }

  // A mapping that stops writes nothing.
  lemma NoWriteAtStop(ev: Evaluation, r: Result<Obj, Stop>, i: nat)
    requires Complete(ev, r) && i <= |ev.course| && i < |ev.ms| && !WritesSourceAt(ev, i)
    ensures WrittenBy(MemAt(ev, i), ev.out, EffectAt(ev, i)) * ev.mem.Keys == {}
  {
  }

  lemma StopsHere(ev: Evaluation, r: Result<Obj, Stop>, b: Build)
    requires Given(ev) && Complete(ev, r) && r.Err? && StandsFor(ev, |ev.course|, b)
    ensures Steps(Look(ev), ev.ctx, ev.ms[..|ev.course| + 1], Branch(map[])) == Err(r.error)
  {
    SameLook(ev, |ev.course|, b);
    StepsNext(Look(ev), ev.ctx, ev.ms, |ev.course|);
  }

  lemma StoppedBefore(ev: Evaluation, r: Result<Obj, Stop>, b: Build, i: nat)
    requires Given(ev) && Complete(ev, r) && StandsFor(ev, |ev.course|, b) && |ev.course| < i < |ev.ms|
    ensures !WritesBelowShared(Look(ev), ev.ctx, ev.ms, i)
  {
    StopsHere(ev, r, b);
    StoppedForGood(Look(ev), ev.ctx, ev.ms, |ev.course| + 1, i);
  }

  // The first such write, exactly: up to it every object of the source holds what it held, and it
  // gives one of them a field, which holds the value or leads on to it.
  lemma FirstWriteIs(ev: Evaluation, j: nat)
    requires Given(ev) && Follows(ev) && WritesSourceAt(ev, j)
    requires forall i :: 0 <= i < j ==> !WritesSourceAt(ev, i)
    ensures forall n :: n in ev.mem ==> n in MemAt(ev, j) && MemAt(ev, j)[n] == ev.mem[n]
    ensures var e := EffectAt(ev, j);
            e.Write? && e.target != [] &&
            var (d, k) := Reach(MemAt(ev, j), ev.out, e.target);
            var made, after := ev.course[j].made, MemAt(ev, j + 1);
            && d in ev.mem && d in after
            && after[d] == ev.mem[d][e.target[k] := if made == [] then e.value else Ref(made[0])]
            && forall n :: n in ev.mem && n != d ==> n in after && after[n] == ev.mem[n]
  {
    var b := StandsForBefore(ev, j);
    assert MovedAt(ev, j);
    WriteOf(ev.mem, b.mem, EffectAt(ev, j), ev.course[j].made, ev.course[j].after, ev.out);
  }

  lemma WriteOf(mem: Memory, now: Memory, e: Effect, made: seq<Obj>, after: Memory, out: Obj)
    requires forall n :: n in mem ==> n in now && now[n] == mem[n]
    requires Moves(now, e, made, after, out) && WrittenBy(now, out, e) * mem.Keys != {}
    ensures e.Write? && e.target != []
    ensures var (d, k) := Reach(now, out, e.target);
            && d in mem && d in after
            && after[d] == mem[d][e.target[k] := if made == [] then e.value else Ref(made[0])]
            && forall n :: n in mem && n != d ==> n in after && after[n] == mem[n]
  {
    var (d, k) := Reach(now, out, e.target);
    MeetsAt(d, mem.Keys);
    StoredIs(now, after, d, made, e.target, k, e.value);
  }

  lemma MeetsAt<T>(x: T, keys: set<T>)
    ensures {x} * keys != {} <==> x in keys
  {
    assert x in keys ==> x in {x} * keys;
  }

  lemma StoredIs(mem: Memory, after: Memory, d: Obj, made: seq<Obj>, p: Path, k: nat, value: Value)
    requires Stored(mem, after, d, made, p, k, value)
    ensures d in after && after[d] == mem[d][p[k] := if made == [] then value else Ref(made[0])]
    ensures forall n :: n in mem && n != d ==> n in after && after[n] == mem[n]
  {
  }

  // Otherwise the objects of the source hold what they held, and the output stands for the tree
  // the list means, or the same stop is reported.
  lemma UntouchedEnds(ev: Evaluation, r: Result<Obj, Stop>) returns (b: Build)
    requires Given(ev) && Follows(ev) && Complete(ev, r)
    requires forall j :: !WritesSourceAt(ev, j)
    ensures b.mem == MemAt(ev, |ev.course|) && Private(b, ev.out, ev.mem.Keys)
    ensures forall n :: n in ev.mem ==> b.mem[n] == ev.mem[n]
    ensures Steps(Look(ev), ev.ctx, ev.ms, Branch(map[])) == if r.Ok? then Ok(b.tree) else Err(r.error)
  {
    var n := |ev.course|;
    b := StandsForBefore(ev, n);
    assert ev.ms[..|ev.ms|] == ev.ms;
    if r.Err? {
      StopsHere(ev, r, b);
      StoppedForGood(Look(ev), ev.ctx, ev.ms, n + 1, |ev.ms|);
    }
  }

  // Up to mapping i nothing stops, and mapping i writes below a place where the tree so far holds
  // an object of the source.
  ghost predicate WritesBelowShared(look: imap<Path, Value>, ctx: Context, ms: seq<Mapping>, i: nat)
    requires forall p: Path :: p in look
  {
    i < |ms| &&
    var r := Steps(look, ctx, ms[..i], Branch(map[]));
    r.Ok? && !EffectClear(r.value, EffectOf(look, ctx, ms[i]))
  }

  lemma StepsNext(look: imap<Path, Value>, ctx: Context, ms: seq<Mapping>, i: nat)
    requires forall p: Path :: p in look
    requires i < |ms|
    ensures var so := Steps(look, ctx, ms[..i], Branch(map[]));
            Steps(look, ctx, ms[..i + 1], Branch(map[])) ==
            if so.Ok? then Step(look, ctx, ms[i], so.value) else so
  {
    assert ms[..i + 1] == ms[..i] + [ms[i]];
    StepsAppend(look, ctx, ms[..i], [ms[i]], Branch(map[]));
    assert [ms[i]][1..] == [];
  }

  lemma StoppedForGood(look: imap<Path, Value>, ctx: Context, ms: seq<Mapping>, i: nat, j: nat)
    requires forall p: Path :: p in look
    requires i <= j <= |ms| && Steps(look, ctx, ms[..i], Branch(map[])).Err?
    ensures Steps(look, ctx, ms[..j], Branch(map[])) == Steps(look, ctx, ms[..i], Branch(map[]))
  {
    assert ms[..j] == ms[..i] + ms[i..j];
    StepsAppend(look, ctx, ms[..i], ms[i..j], Branch(map[]));
  }

  // Where the output is private, an effect writes into the source exactly where something of the
  // source is in the way.
  lemma WritesInSource(b: Build, e: Effect, out: Obj, mem: Memory)
    requires Faithful(b, out, mem)
    ensures WrittenBy(b.mem, out, e) * mem.Keys != {} <==> !EffectClear(b.tree, e)
  {
    if e.Write? && e.target != [] {
      assert ClosedIn(mem.Keys, b.mem) by {
        assert forall n, k :: n in mem && k in mem[n] ==> ValueIn(mem[n][k], mem);
      }
      WritesSourceIff(b, out, mem.Keys, e.target);
      var x, keys := Reach(b.mem, out, e.target).0, mem.Keys;
      assert Written(b.mem, out, e.target) == {x};
      MeetsAt(x, keys);
    }
  }

  lemma StartsFaithful(out: Obj, mem: Memory)
    requires Closed(mem) && out !in mem
    ensures Faithful(Build(Branch(map[]), map[[] := out], mem[out := map[]]), out, mem)
    ensures Closed(mem[out := map[]])
  {
    var mem1 := mem[out := map[]];
    assert forall n, k :: n in mem && k in mem[n] ==> ValueIn(mem[n][k], mem);
    assert forall n, k :: n in mem1 && k in mem1[n] ==> ValueIn(mem1[n][k], mem1);
  }

  // ----- a condition on the list alone -----

  // No mapping writes below a place that an earlier one may have filled with an object of the
  // source.
  ghost predicate NothingBelowShared(ms: seq<Mapping>) {
    forall i, j, p, q :: 0 <= i < j < |ms| && p in Shared(ms[i]) && q in Targets(ms[j]) ==> !(p < q)
  }

  ghost predicate SharedBefore(ms: seq<Mapping>, i: nat, p: Path)
    requires i <= |ms|
  {
    exists j :: 0 <= j < i && p in Shared(ms[j])
  }

  lemma {:induction false} SharesComeFromShared(look: imap<Path, Value>, ctx: Context, ms: seq<Mapping>,
                                                i: nat, q: Path)
    requires forall p: Path :: p in look
    requires i <= |ms| && Steps(look, ctx, ms[..i], Branch(map[])).Ok?
    requires SharesAt(Steps(look, ctx, ms[..i], Branch(map[])).value, q)
    ensures SharedBefore(ms, i, q)
  {
    if i > 0 {
      StepsNext(look, ctx, ms, i - 1);
      var t, e := Steps(look, ctx, ms[..i - 1], Branch(map[])).value, EffectOf(look, ctx, ms[i - 1]);
      EffectInBounds(look, ctx, ms[i - 1]);
      if e.Write? {
        SharesAfter(t, e.target, e.value, q);
      }
      if SharesAt(t, q) {
        SharesComeFromShared(look, ctx, ms, i - 1, q);
      }
    }
  }

  // When every target keeps clear of the earlier direct and derived ones, in whatever branches of
  // conditionals, evaluate writes no object that was there before.
  lemma NothingSharedIsWritten(look: imap<Path, Value>, ctx: Context, ms: seq<Mapping>, i: nat)
    requires forall p: Path :: p in look
    requires NothingBelowShared(ms)
    ensures !WritesBelowShared(look, ctx, ms, i)
  {
    if i < |ms| && Steps(look, ctx, ms[..i], Branch(map[])).Ok? {
      var t, e := Steps(look, ctx, ms[..i], Branch(map[])).value, EffectOf(look, ctx, ms[i]);
      EffectInBounds(look, ctx, ms[i]);
      if e.Write? {
        forall q | q < e.target
          ensures !SharesAt(t, q)
        {
          NotSharedBefore(ms, i, q, e.target);
          if SharesAt(t, q) {
            SharesComeFromShared(look, ctx, ms, i, q);
          }
        }
      }
    }
  }

  lemma NotSharedBefore(ms: seq<Mapping>, i: nat, q: Path, target: Path)
    requires NothingBelowShared(ms) && i < |ms| && target in Targets(ms[i]) && q < target
    ensures !SharedBefore(ms, i, q)
  {
  }

  // Copy the customer, then set a note below the copy: that writes into the order if and only if
  // the order's customer is an object.
  lemma CopyThenNoteIff(look: imap<Path, Value>, ctx: Context)
    requires forall p: Path :: p in look
    ensures var ms := [Direct(["customer"], ["c"]), Constant(Str("vip"), ["c", "note"])];
            (exists i :: WritesBelowShared(look, ctx, ms, i)) <==> look[["customer"]].Ref?
  {
    var ms := [Direct(["customer"], ["c"]), Constant(Str("vip"), ["c", "note"])];
    var v := look[["customer"]];
    var t := Set(Branch(map[]), ["c"], Leaf(v));
    assert ms[..0] == [] && ms[..1] == [ms[0]];
    StepsNext(look, ctx, ms, 0);
    assert Steps(look, ctx, ms[..1], Branch(map[])) == Ok(t);
    assert forall q :: !SharesAt(Branch(map[]), q);
    SharedOnTheWay(v);
    assert WritesBelowShared(look, ctx, ms, 1) <==> v.Ref?;
  }

  lemma SharedOnTheWay(v: Value)
    ensures Clear(Set(Branch(map[]), ["c"], Leaf(v)), ["c", "note"]) <==> !v.Ref?
  {
    var t, p := Set(Branch(map[]), ["c"], Leaf(v)), ["c", "note"];
    GetAfterSet(Branch(map[]), ["c"], Leaf(v), []);
    assert ["c"] + [] == ["c"] && Get(t, ["c"]) == Some(Leaf(v));
    assert ["c"] < p;
    forall q | q < p
      ensures SharesAt(t, q) ==> v.Ref?
    {
      if |q| == 0 {
        assert q == [];
      } else {
        assert q == p[..1] == ["c"];
      }
    }
    assert SharesAt(t, ["c"]) <==> v.Ref?;
  }

  lemma OneMoreMove(ev: Evaluation, move: Move)
    requires Follows(ev) && |ev.course| < |ev.ms|
    requires StopOf(EffectAt(ev, |ev.course|)) == None
    requires Moves(MemAt(ev, |ev.course|), EffectAt(ev, |ev.course|), move.made, move.after, ev.out)
    ensures Follows(ev.(course := ev.course + [move]))
    ensures MemAt(ev.(course := ev.course + [move]), |ev.course| + 1) == move.after
  {
    var next := ev.(course := ev.course + [move]);
    forall j | 0 <= j < |next.course|
      ensures MovedAt(next, j)
    {
      SameSoFar(ev, move, j);
      if j < |ev.course| {
        assert MovedAt(ev, j);
      }
    }
  }

  lemma SameSoFar(ev: Evaluation, move: Move, j: nat)
    requires j <= |ev.course| && j < |ev.ms|
    ensures var next := ev.(course := ev.course + [move]);
            MemAt(next, j) == MemAt(ev, j) && EffectAt(next, j) == EffectAt(ev, j)
  {
  }

  // No move takes a field away from an object.
  lemma {:induction false} FieldsStay(ev: Evaluation, j: nat, l: nat, n: Obj)
    requires Follows(ev) && j <= l <= |ev.course| && n in MemAt(ev, j)
    ensures n in MemAt(ev, l) && MemAt(ev, j)[n].Keys <= MemAt(ev, l)[n].Keys
    decreases l
  {
    if j < l {
      FieldsStay(ev, j, l - 1, n);
      assert MovedAt(ev, l - 1);
      MoveKeepsFields(MemAt(ev, l - 1), EffectAt(ev, l - 1), ev.course[l - 1].made, MemAt(ev, l), ev.out, n);
    }
  }

  lemma MoveKeepsFields(mem: Memory, e: Effect, made: seq<Obj>, after: Memory, out: Obj, n: Obj)
    requires Moves(mem, e, made, after, out) && n in mem
    ensures n in after && mem[n].Keys <= after[n].Keys
  {
    if e.Write? && e.target != [] {
      var (d, k) := Reach(mem, out, e.target);
      StoredIs(mem, after, d, made, e.target, k, e.value);
    }
  }

  // So in the end that object of the source has the field it was given.
  lemma FirstWriteStays(ev: Evaluation, j: nat)
    requires Given(ev) && Follows(ev) && WritesSourceAt(ev, j)
    requires forall i :: 0 <= i < j ==> !WritesSourceAt(ev, i)
    ensures var e := EffectAt(ev, j);
            e.Write? && e.target != [] &&
            var (d, k) := Reach(MemAt(ev, j), ev.out, e.target);
            d in ev.mem && d in MemAt(ev, |ev.course|) && e.target[k] in MemAt(ev, |ev.course|)[d]
  {
    FirstWriteIs(ev, j);
    FieldsStay(ev, j + 1, |ev.course|, Reach(MemAt(ev, j), ev.out, EffectAt(ev, j).target).0);
  }

  lemma EvaluationEnds(ev: Evaluation, r: Result<Obj, Stop>)
    requires Given(ev) && Follows(ev) && Complete(ev, r)
    ensures (exists j :: WritesSourceAt(ev, j)) <==> (exists i :: WritesBelowShared(Look(ev), ev.ctx, ev.ms, i))
    ensures NothingBelowShared(ev.ms) ==>
              forall n :: n in ev.mem ==> n in MemAt(ev, |ev.course|) && MemAt(ev, |ev.course|)[n] == ev.mem[n]
  {
    SourceWrittenIff(ev, r);
    if NothingBelowShared(ev.ms) {
      forall i: nat
        ensures !WritesBelowShared(Look(ev), ev.ctx, ev.ms, i)
      {
        NothingSharedIsWritten(Look(ev), ev.ctx, ev.ms, i);
      }
      var b := UntouchedEnds(ev, r);
    }
  }

  // The two moves of that list on an order whose customer is an object.
  lemma CopyThenNoteMoves(ev: Evaluation, r: Result<Obj, Stop>, order: Obj, customer: Obj)
    requires Given(ev) && Follows(ev) && Complete(ev, r) && order != customer && ev.source == Ref(order)
    requires ev.mem == map[order := map["customer" := Ref(customer)], customer := map[]]
    requires ev.ms == [Direct(["customer"], ["c"]), Constant(Str("vip"), ["c", "note"])]
    ensures r == Ok(ev.out) && |ev.course| == 2
    ensures var end := MemAt(ev, 2);
            && order in end && end[order] == map["customer" := Ref(customer)]
            && customer in end && end[customer] == map["note" := Of(Str("vip"))]
  {
    var m0 := MemAt(ev, 0);
    assert ["customer"][1..] == [];
    assert Read(m0, Ref(order), ["customer"]) == Ref(customer);
    assert EffectAt(ev, 0) == Write(["c"], Ref(customer));
    assert |ev.course| > 0 && MovedAt(ev, 0);
    var m1 := MemAt(ev, 1);
    assert m1[ev.out] == map["c" := Ref(customer)];
    assert m1[customer] == map[] && m1[order] == m0[order];
    assert EffectAt(ev, 1) == Write(["c", "note"], Of(Str("vip")));
    assert ["c", "note"][1..] == ["note"];
    assert Reach(m1, customer, ["note"]) == (customer, 0);
    assert Reach(m1, ev.out, ["c", "note"]) == (customer, 1);
    assert |ev.course| > 1 && MovedAt(ev, 1);
  }

  // The one move of a conditional that sets the subsidiary by the currency.
  lemma SubsidiaryMoves(ev: Evaluation, r: Result<Obj, Stop>, order: Obj, currency: Scalar)
    requires Given(ev) && Follows(ev) && Complete(ev, r) && ev.source == Ref(order)
    requires ev.mem == map[order := map["currency" := Of(currency)]]
    requires ev.ms == [Conditional(["currency"], Of(Str("EUR")), Constant(Num(2), ["subsidiary"]),
                                   Some(Constant(Num(1), ["subsidiary"])))]
    ensures r == Ok(ev.out) && |ev.course| == 1
    ensures var end := MemAt(ev, 1);
            ev.out in end && end[ev.out] == map["subsidiary" := Of(Num(if currency == Str("EUR") then 2 else 1))]
  {
    var m0 := MemAt(ev, 0);
    assert ["currency"][1..] == [];
    assert Read(m0, Ref(order), ["currency"]) == Of(currency);
    assert EffectAt(ev, 0) == Write(["subsidiary"], Of(Num(if currency == Str("EUR") then 2 else 1)));
    assert |ev.course| > 0 && MovedAt(ev, 0);
  }
}
