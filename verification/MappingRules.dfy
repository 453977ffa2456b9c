// packages/mapping-engine/src/primitives.ts and the meaning of packages/mapping-engine/src/evaluator.ts
// on an output that shares no object with anything: paths into a tree, and what a list of
// mappings makes of one. A path is the list of the parts of its dotted form; the empty list is
// the empty string.
module MappingRules {
  import opened Common

  type Path = seq<string>

  datatype Scalar = Null | Bool(b: bool) | Num(n: int) | Str(s: string)

  datatype Value = Undefined | Of(scalar: Scalar) | Ref(obj: Obj)

  class Obj {
    var fields: map<string, Value>

    constructor ()
      ensures fields == map[]
    {
      fields := map[];
    }
  }

  type Args = map<string, string>

  datatype Mapping =
    | Direct(source: Path, target: Path)
    | Constant(value: Scalar, target: Path)
    | Lookup(table: string, fromKey: Path, target: Path, required: Option<bool>)
    | Derive(fn: string, args: Args, target: Path)
    | Conditional(path: Path, equals: Value, onMatch: Mapping, otherwise: Option<Mapping>)

  // The lookup tables, the text a key is looked up by, and the registered pure derivations on
  // the source at hand.
  datatype Context = Context(
    resolve: (string, string) -> Option<string>, text: Value -> string, derives: map<string, Args -> Value>)

  datatype Stop = KeyMissing(path: Path) | NoRow(table: string) | NotRegistered(fn: string) | EmptyTarget

  // ----- trees and paths -----

  datatype Tree = Leaf(value: Value) | Branch(kids: map<string, Tree>)

  function Kids(t: Tree): map<string, Tree> {
    if t.Branch? then t.kids else map[]
  }

  function Get(t: Tree, p: Path): Option<Tree> {
    if p == [] then Some(t)
    else if p[0] in Kids(t) then Get(Kids(t)[p[0]], p[1..])
    else None
  }

  // A non-object on the way is replaced by a fresh object.
  function Set(t: Tree, p: Path, v: Tree): Tree
    requires p != []
    decreases |p|
  {
    var kids := Kids(t);
    if |p| == 1 then Branch(kids[p[0] := v])
    else Branch(kids[p[0] := Set(if p[0] in kids then kids[p[0]] else Branch(map[]), p[1..], v)])
  }

  lemma {:induction false} GetSplit(t: Tree, p: Path, q: Path)
    ensures Get(t, p + q) == match Get(t, p) case Some(u) => Get(u, q) case None => None
  {
    if p == [] {
      assert p + q == q;
    } else {
      assert (p + q)[0] == p[0] && (p + q)[1..] == p[1..] + q;
      if p[0] in Kids(t) {
        GetSplit(Kids(t)[p[0]], p[1..], q);
      }
    }
  }

  // What was put at a path is read back there, and below it.
  lemma {:induction false} GetAfterSet(t: Tree, p: Path, v: Tree, rest: Path)
    requires p != []
    ensures Get(Set(t, p, v), p + rest) == Get(v, rest)
    decreases |p|
  {
    assert (p + rest)[0] == p[0] && (p + rest)[1..] == p[1..] + rest;
    if |p| == 1 {
      assert p[1..] + rest == rest;
    } else {
      GetAfterSet(if p[0] in Kids(t) then Kids(t)[p[0]] else Branch(map[]), p[1..], v, rest);
    }
  }

  // Nothing changes at a path that is neither above nor below the one that was set.
  lemma {:induction false} SetElsewhere(t: Tree, p: Path, v: Tree, q: Path)
    requires p != [] && !(p <= q) && !(q <= p)
    ensures Get(Set(t, p, v), q) == Get(t, q)
    decreases |p|
  {
    if q[0] == p[0] {
      assert p == [p[0]] + p[1..] && q == [q[0]] + q[1..];
      SetElsewhere(if p[0] in Kids(t) then Kids(t)[p[0]] else Branch(map[]), p[1..], v, q[1..]);
    }
  }

  // Above it there are objects, with the same members but the one on the way down.
  lemma {:induction false} SetAbove(t: Tree, p: Path, v: Tree, q: Path)
    requires q < p
    ensures Get(Set(t, p, v), q).Some? && Get(Set(t, p, v), q).value.Branch?
    ensures var was := if Get(t, q).Some? then Kids(Get(t, q).value) else map[];
            var kids := Get(Set(t, p, v), q).value.kids;
            kids.Keys == was.Keys + {p[|q|]} && forall k :: k in was && k != p[|q|] ==> kids[k] == was[k]
    decreases |p|
  {
    if q != [] {
      assert p[0] == q[0] && p == [p[0]] + p[1..] && q == [q[0]] + q[1..];
      SetAbove(if p[0] in Kids(t) then Kids(t)[p[0]] else Branch(map[]), p[1..], v, q[1..]);
    }
  }

  // ----- what a list of mappings means -----

  datatype Effect = Skip | Write(target: Path, value: Value) | Halt(stop: Stop)

  // What one mapping does. `look` is the source, read at each path.
  ghost function EffectOf(look: imap<Path, Value>, ctx: Context, m: Mapping): Effect
    requires forall p: Path :: p in look
    decreases m
  {
    match m
    case Direct(source, target) => Write(target, look[source])
    case Constant(value, target) => Write(target, Of(value))
    case Lookup(table, fromKey, target, required) =>
      var key := look[fromKey];
      if key == Undefined || key == Of(Null) then
        (if required != Some(false) then Halt(KeyMissing(fromKey)) else Write(target, Of(Null)))
      else
        (match ctx.resolve(table, ctx.text(key))
         case Some(row) => Write(target, Of(Str(row)))
         case None => if required != Some(false) then Halt(NoRow(table)) else Write(target, Of(Null)))
    case Derive(fn, args, target) =>
      if fn in ctx.derives then Write(target, ctx.derives[fn](args)) else Halt(NotRegistered(fn))
    case Conditional(path, equals, onMatch, otherwise) =>
      if look[path] == equals then EffectOf(look, ctx, onMatch)
      else if otherwise.Some? then EffectOf(look, ctx, otherwise.value)
      else Skip
  }

  function Apply(t: Tree, e: Effect): Result<Tree, Stop> {
    match e
    case Skip => Ok(t)
    case Write(target, value) => if target == [] then Err(EmptyTarget) else Ok(Set(t, target, Leaf(value)))
    case Halt(stop) => Err(stop)
  }

  // Where a mapping may write, in either branch of a conditional.
  ghost function Targets(m: Mapping): set<Path>
    decreases m
  {
    if m.Conditional? then
      Targets(m.onMatch) + (if m.otherwise.Some? then Targets(m.otherwise.value) else {})
    else {m.target}
  }

  // The targets that may receive an object that already existed.
  ghost function Shared(m: Mapping): set<Path>
    decreases m
  {
    if m.Conditional? then
      Shared(m.onMatch) + (if m.otherwise.Some? then Shared(m.otherwise.value) else {})
    else if m.Direct? || m.Derive? then {m.target}
    else {}
  }

  lemma {:induction false} EffectInBounds(look: imap<Path, Value>, ctx: Context, m: Mapping)
    requires forall p: Path :: p in look
    ensures var e := EffectOf(look, ctx, m);
            e.Write? ==> e.target in Targets(m) && (e.value.Ref? ==> e.target in Shared(m))
    decreases m
  {
    if m.Conditional? {
      EffectInBounds(look, ctx, m.onMatch);
      if m.otherwise.Some? {
        EffectInBounds(look, ctx, m.otherwise.value);
      }
    }
  }

  ghost function Step(look: imap<Path, Value>, ctx: Context, m: Mapping, t: Tree): Result<Tree, Stop>
    requires forall p: Path :: p in look
  {
    Apply(t, EffectOf(look, ctx, m))
  }

  ghost function Steps(look: imap<Path, Value>, ctx: Context, ms: seq<Mapping>, t: Tree): Result<Tree, Stop>
    requires forall p: Path :: p in look
    decreases ms
  {
    if ms == [] then Ok(t)
    else
      match Step(look, ctx, ms[0], t)
      case Ok(u) => Steps(look, ctx, ms[1..], u)
      case Err(e) => Err(e)
  }

  // A concatenated list goes on from what its first part made, or stops where that stops.
  lemma {:induction false} StepsAppend(look: imap<Path, Value>, ctx: Context,
                                       ms: seq<Mapping>, ns: seq<Mapping>, t: Tree)
    requires forall p: Path :: p in look
    ensures Steps(look, ctx, ms + ns, t) ==
            match Steps(look, ctx, ms, t) case Ok(u) => Steps(look, ctx, ns, u) case Err(e) => Err(e)
    decreases ms
  {
    if ms == [] {
      assert ms + ns == ns;
    } else {
      assert (ms + ns)[0] == ms[0] && (ms + ns)[1..] == ms[1..] + ns;
      match Step(look, ctx, ms[0], t)
      case Ok(u) => StepsAppend(look, ctx, ms[1..], ns, u);
      case Err(_) =>
    }
  }

  // ----- what each kind of mapping does at its place in a list -----

  // The value at the target, or the stop of an empty one.
  ghost function Assigned(t: Tree, target: Path, value: Value): Result<Tree, Stop> {
    if target == [] then Err(EmptyTarget) else Ok(Set(t, target, Leaf(value)))
  }

  lemma StepsLast(look: imap<Path, Value>, ctx: Context, before: seq<Mapping>, m: Mapping, start: Tree, t: Tree)
    requires forall p: Path :: p in look
    requires Steps(look, ctx, before, start) == Ok(t)
    ensures Steps(look, ctx, before + [m], start) == Step(look, ctx, m, t)
  {
    StepsAppend(look, ctx, before, [m], start);
    assert [m][1..] == [];
  }

  // A direct mapping leaves what the source holds at its path.
  lemma DirectLeaves(look: imap<Path, Value>, ctx: Context, before: seq<Mapping>, start: Tree, t: Tree,
                     source: Path, target: Path)
    requires forall p: Path :: p in look
    requires Steps(look, ctx, before, start) == Ok(t)
    ensures Steps(look, ctx, before + [Direct(source, target)], start) == Assigned(t, target, look[source])
  {
    StepsLast(look, ctx, before, Direct(source, target), start, t);
  }

  lemma ConstantLeaves(look: imap<Path, Value>, ctx: Context, before: seq<Mapping>, start: Tree, t: Tree,
                       value: Scalar, target: Path)
    requires forall p: Path :: p in look
    requires Steps(look, ctx, before, start) == Ok(t)
    ensures Steps(look, ctx, before + [Constant(value, target)], start) == Assigned(t, target, Of(value))
  {
    StepsLast(look, ctx, before, Constant(value, target), start, t);
  }

  // A derivation leaves what its function gives, or stops when there is none of that name.
  lemma DeriveLeaves(look: imap<Path, Value>, ctx: Context, before: seq<Mapping>, start: Tree, t: Tree,
                     fn: string, args: Args, target: Path)
    requires forall p: Path :: p in look
    requires Steps(look, ctx, before, start) == Ok(t)
    ensures var r := Steps(look, ctx, before + [Derive(fn, args, target)], start);
            && (fn in ctx.derives ==> r == Assigned(t, target, ctx.derives[fn](args)))
            && (fn !in ctx.derives ==> r == Err(NotRegistered(fn)))
  {
    StepsLast(look, ctx, before, Derive(fn, args, target), start, t);
  }

  ghost predicate KeyIsThere(key: Value) {
    key != Undefined && key != Of(Null)
  }

  // The row a lookup finds, if its key is there and the table has one.
  ghost function FoundRow(look: imap<Path, Value>, ctx: Context, table: string, fromKey: Path): Option<string>
    requires forall p: Path :: p in look
  {
    if KeyIsThere(look[fromKey]) then ctx.resolve(table, ctx.text(look[fromKey])) else None
  }

  // A lookup leaves the row it finds. Without one it stops, naming the key or the table, if and
  // only if it is required, as it is unless it says `false`, and leaves null otherwise.
  lemma LookupLeaves(look: imap<Path, Value>, ctx: Context, before: seq<Mapping>, start: Tree, t: Tree,
                     table: string, fromKey: Path, target: Path, required: Option<bool>)
    requires forall p: Path :: p in look
    requires Steps(look, ctx, before, start) == Ok(t)
    ensures var r := Steps(look, ctx, before + [Lookup(table, fromKey, target, required)], start);
            var row := FoundRow(look, ctx, table, fromKey);
            && (row.Some? ==> r == Assigned(t, target, Of(Str(row.value))))
            && (row.None? && required == Some(false) ==> r == Assigned(t, target, Of(Null)))
            && (row.None? && required != Some(false) ==>
                  r == Err(if KeyIsThere(look[fromKey]) then NoRow(table) else KeyMissing(fromKey)))
  {
    StepsLast(look, ctx, before, Lookup(table, fromKey, target, required), start, t);
  }

  // A conditional, wherever it stands, is its first branch when the source holds that value at
  // that path, and otherwise its second, or nothing at all.
  lemma ConditionalChooses(look: imap<Path, Value>, ctx: Context, before: seq<Mapping>, after: seq<Mapping>, t: Tree,
                           path: Path, equals: Value, onMatch: Mapping, otherwise: Option<Mapping>)
    requires forall p: Path :: p in look
    ensures var r := Steps(look, ctx, before + ([Conditional(path, equals, onMatch, otherwise)] + after), t);
            && (look[path] == equals ==> r == Steps(look, ctx, before + ([onMatch] + after), t))
            && (look[path] != equals && otherwise.Some? ==>
                  r == Steps(look, ctx, before + ([otherwise.value] + after), t))
            && (look[path] != equals && otherwise.None? ==> r == Steps(look, ctx, before + after, t))
  {
    var m := Conditional(path, equals, onMatch, otherwise);
    StepsAppend(look, ctx, before, [m] + after, t);
    StepsAppend(look, ctx, before, [onMatch] + after, t);
    StepsAppend(look, ctx, before, after, t);
    if otherwise.Some? {
      StepsAppend(look, ctx, before, [otherwise.value] + after, t);
    }
    match Steps(look, ctx, before, t)
    case Err(_) =>
    case Ok(u) =>
      StepsFirst(look, ctx, m, after, u);
      StepsFirst(look, ctx, onMatch, after, u);
      if otherwise.Some? {
        StepsFirst(look, ctx, otherwise.value, after, u);
      }
  }

  lemma StepsFirst(look: imap<Path, Value>, ctx: Context, m: Mapping, after: seq<Mapping>, t: Tree)
    requires forall p: Path :: p in look
    ensures var r := Step(look, ctx, m, t);
            Steps(look, ctx, [m] + after, t) == if r.Ok? then Steps(look, ctx, after, r.value) else Err(r.error)
  {
    assert ([m] + after)[0] == m && ([m] + after)[1..] == after;
  }

  ghost predicate Apart(p: Path, q: Path) {
    !(p <= q) && !(q <= p)
  }

  lemma StepElsewhere(look: imap<Path, Value>, ctx: Context, m: Mapping, t: Tree, q: Path)
    requires forall p: Path :: p in look
    requires forall p :: p in Targets(m) ==> Apart(p, q)
    ensures var r := Step(look, ctx, m, t); r.Ok? ==> Get(r.value, q) == Get(t, q)
  {
    EffectInBounds(look, ctx, m);
    var e := EffectOf(look, ctx, m);
    if e.Write? && e.target != [] {
      assert Apart(e.target, q);
      SetElsewhere(t, e.target, Leaf(e.value), q);
    }
  }

  lemma {:induction false} StepsElsewhere(look: imap<Path, Value>, ctx: Context, ms: seq<Mapping>, t: Tree, q: Path)
    requires forall p: Path :: p in look
    requires forall m, p :: m in ms && p in Targets(m) ==> Apart(p, q)
    ensures var r := Steps(look, ctx, ms, t); r.Ok? ==> Get(r.value, q) == Get(t, q)
    decreases ms
  {
    if ms != [] {
      StepElsewhere(look, ctx, ms[0], t, q);
      match Step(look, ctx, ms[0], t)
      case Ok(u) => StepsElsewhere(look, ctx, ms[1..], u, q);
      case Err(_) =>
    }
  }

  // A mapping that writes, of any kind, overrides whatever came before it at its target, and
  // below it, unless a later one may write at, above or below the same target.
  lemma ExtrasOverride(look: imap<Path, Value>, ctx: Context,
                       defaults: seq<Mapping>, before: seq<Mapping>, extra: Mapping, after: seq<Mapping>)
    requires forall p: Path :: p in look
    requires EffectOf(look, ctx, extra).Write?
    requires forall m, p :: m in after && p in Targets(m) ==> Apart(p, EffectOf(look, ctx, extra).target)
    ensures var r := Steps(look, ctx, defaults + (before + ([extra] + after)), Branch(map[]));
            var e := EffectOf(look, ctx, extra);
            r.Ok? ==> Get(r.value, e.target) == Some(Leaf(e.value))
  {
    var start, e := Branch(map[]), EffectOf(look, ctx, extra);
    StepsAppend(look, ctx, defaults, before + ([extra] + after), start);
    match Steps(look, ctx, defaults, start)
    case Err(_) =>
    case Ok(t) =>
      StepsAppend(look, ctx, before, [extra] + after, t);
      match Steps(look, ctx, before, t)
      case Err(_) =>
      case Ok(u) =>
        StepsAppend(look, ctx, [extra], after, u);
        assert Steps(look, ctx, [extra], u) == Step(look, ctx, extra, u) by {
          assert [extra][1..] == [];
        }
        if e.target != [] {
          GetAfterSet(u, e.target, Leaf(e.value), []);
          assert e.target + [] == e.target;
          StepsElsewhere(look, ctx, after, Set(u, e.target, Leaf(e.value)), e.target);
        }
  }
}
