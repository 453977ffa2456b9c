// The path utilities of packages/mapping-engine/src/evaluator.ts on objects: getPath, setPath, and
// what one setPath does to an output that is built in place.
module MappingObjects {
  import opened Common
  import opened MappingRules

  // The content of the objects in play.
  type Memory = map<Obj, map<string, Value>>

  ghost predicate Holds(mem: Memory)
    reads mem.Keys
  {
    forall n :: n in mem ==> n.fields == mem[n]
  }

  ghost predicate ValueIn(v: Value, mem: Memory) {
    v.Ref? ==> v.obj in mem
  }

  ghost predicate Closed(mem: Memory) {
    forall n, k :: n in mem && k in mem[n] ==> ValueIn(mem[n][k], mem)
  }

  // ----- reading -----

  ghost function Read(mem: Memory, v: Value, p: Path): Value
    decreases |p|
  {
    if p == [] then v
    else if v.Ref? && v.obj in mem && p[0] in mem[v.obj] then Read(mem, mem[v.obj][p[0]], p[1..])
    else Undefined
  }

  // One part more on the path is one field further in, or undefined.
  lemma {:induction false} ReadFurther(mem: Memory, v: Value, p: Path, key: string)
    requires Closed(mem) && ValueIn(v, mem)
    ensures Read(mem, v, []) == v && ValueIn(Read(mem, v, p), mem)
    ensures var r := Read(mem, v, p);
            Read(mem, v, p + [key]) == if r.Ref? && key in mem[r.obj] then mem[r.obj][key] else Undefined
    decreases |p|
  {
    assert p == [] ==> (p + [key])[0] == key && (p + [key])[1..] == [];
    if p != [] {
      assert (p + [key])[0] == p[0] && (p + [key])[1..] == p[1..] + [key];
      if v.Ref? && p[0] in mem[v.obj] {
        assert ValueIn(mem[v.obj][p[0]], mem);
        ReadFurther(mem, mem[v.obj][p[0]], p[1..], key);
      }
    }
  }

  // getPath: undefined for anything missing on the way.
  method GetPath(source: Value, p: Path, ghost mem: Memory) returns (r: Value)
    requires Holds(mem) && Closed(mem) && ValueIn(source, mem)
    ensures r == Read(mem, source, p) && ValueIn(r, mem)
  {
    var cur := source;
    for i := 0 to |p|
      invariant ValueIn(cur, mem)
      invariant Read(mem, cur, p[i..]) == Read(mem, source, p)
    {
      if !cur.Ref? {
        return Undefined;
      }
      cur := if p[i] in cur.obj.fields then cur.obj.fields[p[i]] else Undefined;
      assert p[i..][1..] == p[i + 1..];
    }
    return cur;
  }

  // ----- writing -----

  // The object a path leads to as far as there are objects, and how many steps that is; the
  // last part of the path names a field and is not followed.
  ghost function Reach(mem: Memory, n: Obj, p: Path): (r: (Obj, nat))
    requires p != []
    ensures r.1 < |p|
    ensures n in mem ==> r.0 in mem
    decreases |p|
  {
    if |p| > 1 && n in mem && p[0] in mem[n] && mem[n][p[0]].Ref? && mem[n][p[0]].obj in mem then
      var r := Reach(mem, mem[n][p[0]].obj, p[1..]);
      (r.0, r.1 + 1)
    else (n, 0)
  }

  // The content of an object on the rest of the path.
  ghost function Link(p: Path, k: nat, made: seq<Obj>, value: Value, j: nat): map<string, Value>
    requires k + |made| + 1 == |p| && j <= |made|
  {
    map[p[k + j] := if j < |made| then Ref(made[j]) else value]
  }

  ghost predicate Distinct(made: seq<Obj>) {
    forall j, l :: 0 <= j < l < |made| ==> made[j] != made[l]
  }

  // One object that was there before is written, and the rest of the path hangs on it.
  ghost predicate Stored(mem: Memory, after: Memory, d: Obj, made: seq<Obj>, p: Path, k: nat, value: Value) {
    && k + |made| + 1 == |p| && d in mem && Distinct(made)
    && mem.Keys <= after.Keys
    && (forall j :: 0 <= j < |made| ==>
          made[j] !in mem && made[j] in after && after[made[j]] == Link(p, k, made, value, j + 1))
    && after[d] == mem[d] + Link(p, k, made, value, 0)
    && (forall n :: n in mem && n != d ==> after[n] == mem[n])
  }

  ghost function Written(mem: Memory, out: Obj, p: Path): set<Obj> {
    if p == [] then {} else {Reach(mem, out, p).0}
  }

  // After `i` parts: still among the objects that were there, or at the end of fresh ones.
  ghost predicate Hung(mem: Memory, mid: Memory, cur: Obj, d: Obj, made: seq<Obj>, p: Path, k: nat, i: nat) {
    && i < |p| && k < |p| && d in mem && Distinct(made) && mem.Keys <= mid.Keys
    && (forall j :: 0 <= j < |made| ==> made[j] !in mem && made[j] in mid)
    && (forall n :: n in mem && n != d ==> mid[n] == mem[n])
    && (if made == [] then i <= k && cur in mem && mid == mem && Reach(mem, cur, p[i..]) == (d, k - i)
        else i == k + |made| && cur == made[|made| - 1] && mid[cur] == map[] && mid[d] == mem[d][p[k] := Ref(made[0])])
    && (forall j :: 0 <= j < |made| - 1 ==> mid[made[j]] == map[p[k + j + 1] := Ref(made[j + 1])])
  }

  lemma HungFollow(mem: Memory, cur: Obj, d: Obj, p: Path, k: nat, i: nat)
    requires i + 1 < |p| && Hung(mem, mem, cur, d, [], p, k, i) && Closed(mem)
    requires p[i] in mem[cur] && mem[cur][p[i]].Ref?
    ensures Hung(mem, mem, mem[cur][p[i]].obj, d, [], p, k, i + 1)
  {
    assert p[i..][1..] == p[i + 1..];
    assert ValueIn(mem[cur][p[i]], mem);
  }

  lemma HungMake(mem: Memory, mid: Memory, cur: Obj, d: Obj, made: seq<Obj>, p: Path, k: nat, i: nat, child: Obj)
    requires i + 1 < |p| && Hung(mem, mid, cur, d, made, p, k, i) && child !in mid && cur in mid
    requires !(p[i] in mid[cur] && mid[cur][p[i]].Ref?) && Closed(mid)
    ensures var next := mid[child := map[]][cur := mid[cur][p[i] := Ref(child)]];
            Hung(mem, next, child, d, made + [child], p, k, i + 1) && Closed(next)
    ensures cur == d || cur !in mem
  {
    PutCloses(mid[child := map[]], cur, p[i], Ref(child));
  }

  lemma PutCloses(mem: Memory, n: Obj, key: string, v: Value)
    requires Closed(mem) && n in mem && ValueIn(v, mem)
    ensures Closed(mem[n := mem[n][key := v]])
  {
    var after := mem[n := mem[n][key := v]];
    forall m, k | m in after && k in after[m]
      ensures ValueIn(after[m][k], after)
    {
      assert after[m][k] == v || (k in mem[m] && after[m][k] == mem[m][k]);
    }
  }

  // Assigning one field.
  method PutField(n: Obj, key: string, v: Value, ghost mem: Memory) returns (ghost after: Memory)
    requires Holds(mem) && n in mem
    modifies n
    ensures after == mem[n := mem[n][key := v]] && Holds(after)
  {
    n.fields := n.fields[key := v];
    after := mem[n := n.fields];
  }

  lemma LastLink(mem: Memory, mid: Memory, cur: Obj, d: Obj, made: seq<Obj>, p: Path, k: nat, value: Value)
    requires p != [] && Hung(mem, mid, cur, d, made, p, k, |p| - 1)
    ensures Stored(mem, mid[cur := mid[cur][p[|p| - 1] := value]], d, made, p, k, value)
    ensures cur == d || cur !in mem
  {
  }

  // The loop of setPath: follow the path to its last part, making objects where there are none.
  method Descend(out: Obj, p: Path, ghost mem: Memory)
    returns (cur: Obj, ghost made: seq<Obj>, ghost after: Memory)
    requires Holds(mem) && Closed(mem) && out in mem && p != []
    modifies Written(mem, out, p)
    ensures Holds(after) && Closed(after) && cur in after && fresh(after.Keys - mem.Keys)
    ensures var (d, k) := Reach(mem, out, p); Hung(mem, after, cur, d, made, p, k, |p| - 1)
  {
    ghost var d, k := Reach(mem, out, p).0, Reach(mem, out, p).1;
    cur, made, after := out, [], mem;
    assert p[0..] == p;
    for i := 0 to |p| - 1
      invariant Holds(after) && Closed(after) && cur in after && Hung(mem, after, cur, d, made, p, k, i)
      invariant fresh(after.Keys - mem.Keys)
    {
      var key := p[i];
      if key in cur.fields && cur.fields[key].Ref? {
        HungFollow(mem, cur, d, p, k, i);
        cur := cur.fields[key].obj;
      } else {
        var child := new Obj();
        HungMake(mem, after, cur, d, made, p, k, i, child);
        after := PutField(cur, key, Ref(child), after[child := map[]]);
        cur, made := child, made + [child];
      }
    }
  }

  // setPath. It writes the deepest object on the path, and throws on the empty path.
  method SetPath(out: Obj, p: Path, value: Value, ghost mem: Memory)
    returns (ok: bool, ghost made: seq<Obj>, ghost after: Memory)
    requires Holds(mem) && Closed(mem) && out in mem && ValueIn(value, mem)
    modifies Written(mem, out, p)
    ensures ok <==> p != []
    ensures Holds(after) && Closed(after) && fresh(after.Keys - mem.Keys)
    ensures if ok then var (d, k) := Reach(mem, out, p); Stored(mem, after, d, made, p, k, value) else after == mem
  {
    made, after := [], mem;
    ok := |p| > 0;
    if ok {
      var cur: Obj;
      cur, made, after := Descend(out, p, mem);
      LastLink(mem, after, cur, Reach(mem, out, p).0, made, p, Reach(mem, out, p).1, value);
      PutCloses(after, cur, p[|p| - 1], value);
      after := PutField(cur, p[|p| - 1], value, after);
    }
  }

  // ----- an output that shares no object with the source, and the tree it stands for -----

  ghost predicate IsBranch(tree: Tree, q: Path) {
    Get(tree, q).Some? && Get(tree, q).value.Branch?
  }

  // A path that holds a reference the tree does not follow.
  ghost predicate SharesAt(tree: Tree, q: Path) {
    Get(tree, q).Some? && Get(tree, q).value.Leaf? && Get(tree, q).value.value.Ref?
  }

  // No object on the way along `p` is shared.
  ghost predicate Clear(tree: Tree, p: Path) {
    forall q :: q < p ==> !SharesAt(tree, q)
  }

  ghost function Slot(t: Tree, owned: map<Path, Obj>, q: Path): Value {
    match t
    case Leaf(v) => v
    case Branch(_) => if q in owned then Ref(owned[q]) else Undefined
  }

  ghost function Expected(tree: Tree, owned: map<Path, Obj>, q: Path): map<string, Value>
    requires IsBranch(tree, q)
  {
    var kids := Get(tree, q).value.kids;
    map k | k in kids :: Slot(kids[k], owned, q + [k])
  }

  ghost predicate Shape(tree: Tree, owned: map<Path, Obj>) {
    && (forall q :: q in owned <==> IsBranch(tree, q))
    && (forall q, r :: q in owned && r in owned && q != r ==> owned[q] != owned[r])
  }

  // Every inner node of the tree is an object of the output's own, holding what the tree says.
  ghost predicate Linked(tree: Tree, owned: map<Path, Obj>, out: Obj, mem: Memory, heap: set<Obj>) {
    && Shape(tree, owned)
    && [] in owned && owned[[]] == out
    && (forall q :: q in owned ==> owned[q] in mem && owned[q] !in heap)
    && (forall q :: q in owned ==> mem[owned[q]] == Expected(tree, owned, q))
  }

  lemma KidAt(tree: Tree, q: Path, k: string)
    ensures Get(tree, q + [k]) ==
            if IsBranch(tree, q) && k in Get(tree, q).value.kids then Some(Get(tree, q).value.kids[k]) else None
  {
    GetSplit(tree, q, [k]);
    assert [k][1..] == [];
  }

  lemma FieldAt(tree: Tree, owned: map<Path, Obj>, out: Obj, mem: Memory, heap: set<Obj>, q: Path, c: string)
    requires Linked(tree, owned, out, mem, heap) && q in owned && !SharesAt(tree, q + [c])
    ensures var fields := mem[owned[q]];
            && (q + [c] in owned <==> c in fields && fields[c].Ref? && fields[c].obj in mem)
            && (q + [c] in owned ==> fields[c].obj == owned[q + [c]])
  {
    KidAt(tree, q, c);
    assert mem[owned[q]] == Expected(tree, owned, q);
  }

  // Along `p`, an owned object leads on to the next owned one, and to no other.
  ghost predicate LeadsOn(owned: map<Path, Obj>, mem: Memory, p: Path, j: nat)
    requires j < |p| && p[..j] in owned
  {
    owned[p[..j]] in mem &&
    var fields := mem[owned[p[..j]]];
    && (p[..j + 1] in owned <==> p[j] in fields && fields[p[j]].Ref? && fields[p[j]].obj in mem)
    && (p[..j + 1] in owned ==> fields[p[j]].obj == owned[p[..j + 1]])
  }

  ghost predicate OwnedAlong(owned: map<Path, Obj>, mem: Memory, p: Path) {
    forall j :: 0 <= j < |p| - 1 && p[..j] in owned ==> LeadsOn(owned, mem, p, j)
  }

  lemma LinkedAlong(tree: Tree, owned: map<Path, Obj>, out: Obj, mem: Memory, heap: set<Obj>, p: Path)
    requires Linked(tree, owned, out, mem, heap) && Clear(tree, p)
    ensures OwnedAlong(owned, mem, p)
  {
    forall j | 0 <= j < |p| - 1 && p[..j] in owned
      ensures LeadsOn(owned, mem, p, j)
    {
      assert p[..j + 1] == p[..j] + [p[j]];
      assert p[..j + 1] < p && !SharesAt(tree, p[..j + 1]);
      FieldAt(tree, owned, out, mem, heap, p[..j], p[j]);
    }
  }

  // The walk follows the owned objects, and stops where they end.
  lemma {:induction false} ReachAlong(owned: map<Path, Obj>, mem: Memory, p: Path, i: nat)
    requires OwnedAlong(owned, mem, p) && i < |p| && p[..i] in owned
    ensures var r := Reach(mem, owned[p[..i]], p[i..]);
            var k := i + r.1;
            && k < |p| && p[..k] in owned && r.0 == owned[p[..k]]
            && (k + 1 < |p| ==> p[..k + 1] !in owned)
    decreases |p| - i
  {
    assert p[i..][0] == p[i] && p[i..][1..] == p[i + 1..];
    if i + 1 < |p| {
      assert LeadsOn(owned, mem, p, i);
      if p[..i + 1] in owned {
        ReachAlong(owned, mem, p, i + 1);
      }
    }
  }

  lemma ReachLinked(tree: Tree, owned: map<Path, Obj>, out: Obj, mem: Memory, heap: set<Obj>, p: Path)
    requires Linked(tree, owned, out, mem, heap) && Clear(tree, p) && p != []
    ensures var (d, k) := Reach(mem, out, p); StopsAt(owned, p, k) && d == owned[p[..k]]
  {
    LinkedAlong(tree, owned, out, mem, heap, p);
    assert p[0..] == p && p[..0] == [];
    ReachAlong(owned, mem, p, 0);
  }

  // The objects that belong to the output after `p` is set: those not at or below `p`, and the
  // fresh ones on the way to it.
  ghost function OwnedAfter(owned: map<Path, Obj>, p: Path, k: nat, made: seq<Obj>): map<Path, Obj>
    requires k + |made| + 1 == |p|
  {
    var kept, added := set q | q in owned && !(p <= q), set j | k < j < |p| :: p[..j];
    map q | q in kept + added :: if k < |q| && q < p then made[|q| - k - 1] else owned[q]
  }

  // Where setting a path stops finding objects of the output's own.
  ghost predicate StopsAt(owned: map<Path, Obj>, p: Path, k: nat) {
    k < |p| && p[..k] in owned && (k + 1 < |p| ==> p[..k + 1] !in owned)
  }

  lemma {:induction false} Above(tree: Tree, q: Path, r: Path)
    requires q <= r && IsBranch(tree, r)
    ensures IsBranch(tree, q)
  {
    GetSplit(tree, q, r[|q|..]);
    assert q + r[|q|..] == r;
  }

  lemma OwnedKeys(tree: Tree, owned: map<Path, Obj>, p: Path, k: nat, made: seq<Obj>, q: Path)
    requires Shape(tree, owned) && StopsAt(owned, p, k) && k + |made| + 1 == |p|
    ensures q in OwnedAfter(owned, p, k, made) <==> q < p || (q in owned && !(p <= q))
    ensures q < p ==> (q in owned <==> |q| <= k)
  {
    if q < p {
      if |q| <= k {
        Above(tree, q, p[..k]);
      } else {
        if q in owned {
          Above(tree, p[..k + 1], q);
        }
        assert q == p[..|q|];
      }
    }
  }

  lemma ShapeAfter(tree: Tree, owned: map<Path, Obj>, p: Path, k: nat, made: seq<Obj>, v: Value)
    requires Shape(tree, owned) && StopsAt(owned, p, k) && k + |made| + 1 == |p|
    requires forall j, l :: 0 <= j < l < |made| ==> made[j] != made[l]
    requires forall j :: 0 <= j < |made| ==> made[j] !in owned.Values
    ensures Shape(Set(tree, p, Leaf(v)), OwnedAfter(owned, p, k, made))
  {
    var after, grown := Set(tree, p, Leaf(v)), OwnedAfter(owned, p, k, made);
    forall q
      ensures q in grown <==> IsBranch(after, q)
    {
      OwnedKeys(tree, owned, p, k, made, q);
      BranchAfter(tree, p, v, q);
    }
    forall q, r | q in grown && r in grown && q != r
      ensures grown[q] != grown[r]
    {
      OwnedKeys(tree, owned, p, k, made, q);
      OwnedKeys(tree, owned, p, k, made, r);
      if q < p && r < p && |q| > k && |r| > k {
        assert |q| != |r| by {
          assert q == p[..|q|] && r == p[..|r|];
        }
      }
    }
  }

  lemma BranchAfter(tree: Tree, p: Path, v: Value, q: Path)
    requires p != []
    ensures IsBranch(Set(tree, p, Leaf(v)), q) <==> q < p || (IsBranch(tree, q) && !(p <= q))
  {
    if q < p {
      SetAbove(tree, p, Leaf(v), q);
    } else if p <= q {
      GetAfterSet(tree, p, Leaf(v), q[|p|..]);
      assert p + q[|p|..] == q;
    } else {
      SetElsewhere(tree, p, Leaf(v), q);
    }
  }

  // What each object must hold afterwards, off the path and on it.
  lemma ExpectedOff(tree: Tree, owned: map<Path, Obj>, p: Path, k: nat, made: seq<Obj>, v: Value, q: Path)
    requires Shape(tree, owned) && StopsAt(owned, p, k) && k + |made| + 1 == |p|
    requires IsBranch(tree, q) && Apart(p, q)
    ensures IsBranch(Set(tree, p, Leaf(v)), q)
    ensures Expected(Set(tree, p, Leaf(v)), OwnedAfter(owned, p, k, made), q) == Expected(tree, owned, q)
  {
    SetElsewhere(tree, p, Leaf(v), q);
    var grown := OwnedAfter(owned, p, k, made);
    var kids := Get(tree, q).value.kids;
    forall c | c in kids
      ensures Slot(kids[c], grown, q + [c]) == Slot(kids[c], owned, q + [c])
    {
      OwnedKeys(tree, owned, p, k, made, q + [c]);
      assert !(q + [c] < p) && !(p <= q + [c]) by {
        ApartBelow(p, q, c);
      }
    }
  }

  lemma ApartBelow(p: Path, q: Path, c: string)
    requires Apart(p, q)
    ensures Apart(p, q + [c])
  {
    assert (q + [c])[..|q|] == q;
  }

  lemma Sideways(p: Path, q: Path, d: string)
    requires q < p && d != p[|q|]
    ensures Apart(p, q + [d])
  {
    assert (q + [d])[|q|] == d;
  }

  lemma KidsOn(tree: Tree, p: Path, v: Value, q: Path)
    requires q < p
    ensures IsBranch(Set(tree, p, Leaf(v)), q)
    ensures var was := if IsBranch(tree, q) then Get(tree, q).value.kids else map[];
            var kids := Get(Set(tree, p, Leaf(v)), q).value.kids;
            && kids.Keys == was.Keys + {p[|q|]}
            && (forall d :: d in was && d != p[|q|] ==> kids[d] == was[d])
            && (if |q| + 1 == |p| then kids[p[|q|]] == Leaf(v) else kids[p[|q|]].Branch?)
  {
    SetAbove(tree, p, Leaf(v), q);
    KidDown(tree, p, v, q, Get(Set(tree, p, Leaf(v)), q).value.kids);
  }

  lemma KidDown(tree: Tree, p: Path, v: Value, q: Path, kids: map<string, Tree>)
    requires q < p && Get(Set(tree, p, Leaf(v)), q) == Some(Branch(kids)) && p[|q|] in kids
    ensures if |q| + 1 == |p| then kids[p[|q|]] == Leaf(v) else kids[p[|q|]].Branch?
  {
    var after, down := Set(tree, p, Leaf(v)), p[..|q| + 1];
    assert q + [p[|q|]] == down;
    KidAt(after, q, p[|q|]);
    assert Get(after, down) == Some(kids[p[|q|]]);
    if |q| + 1 < |p| {
      BranchAfter(tree, p, v, down);
    } else {
      GetAfterSet(tree, p, Leaf(v), []);
      assert p + [] == p == down;
    }
  }

  lemma SlotSideways(tree: Tree, owned: map<Path, Obj>, p: Path, k: nat, made: seq<Obj>, q: Path, d: string, kid: Tree)
    requires Shape(tree, owned) && StopsAt(owned, p, k) && k + |made| + 1 == |p| && q < p && d != p[|q|]
    ensures Slot(kid, OwnedAfter(owned, p, k, made), q + [d]) == Slot(kid, owned, q + [d])
  {
    Sideways(p, q, d);
    OwnedKeys(tree, owned, p, k, made, q + [d]);
  }

  lemma SlotDown(tree: Tree, owned: map<Path, Obj>, p: Path, k: nat, made: seq<Obj>, q: Path, kid: Tree)
    requires Shape(tree, owned) && StopsAt(owned, p, k) && k + |made| + 1 == |p| && |q| + 1 < |p| && q < p
    requires kid.Branch?
    ensures |q| < k ==> p[..|q| + 1] in owned
    ensures Slot(kid, OwnedAfter(owned, p, k, made), p[..|q| + 1]) ==
            if |q| < k then Ref(owned[p[..|q| + 1]]) else Ref(made[|q| - k])
  {
    OwnedKeys(tree, owned, p, k, made, p[..|q| + 1]);
  }

  // On the path the slot that leads down is the next object, or the value at the end; the rest
  // is as it was.
  lemma ExpectedOn(tree: Tree, owned: map<Path, Obj>, p: Path, k: nat, made: seq<Obj>, v: Value, q: Path)
    requires Shape(tree, owned) && StopsAt(owned, p, k) && k + |made| + 1 == |p| && q < p
    ensures IsBranch(Set(tree, p, Leaf(v)), q) && (IsBranch(tree, q) <==> |q| <= k)
    ensures |q| < k ==> p[..|q| + 1] in owned
    ensures Expected(Set(tree, p, Leaf(v)), OwnedAfter(owned, p, k, made), q) ==
            (if |q| <= k then Expected(tree, owned, q) else map[])
            + map[p[|q|] := if |q| + 1 == |p| then v
                            else if |q| < k then Ref(owned[p[..|q| + 1]])
                            else Ref(made[|q| - k])]
  {
    KidsOn(tree, p, v, q);
    OwnedKeys(tree, owned, p, k, made, q);
    var kids, c := Get(Set(tree, p, Leaf(v)), q).value.kids, p[|q|];
    forall d | d in kids && d != c
      ensures Slot(kids[d], OwnedAfter(owned, p, k, made), q + [d]) == Slot(kids[d], owned, q + [d])
    {
      SlotSideways(tree, owned, p, k, made, q, d, kids[d]);
    }
    SlotAtEnd(tree, owned, p, k, made, v, q, kids[c]);
  }

  lemma SlotAtEnd(tree: Tree, owned: map<Path, Obj>, p: Path, k: nat, made: seq<Obj>, v: Value, q: Path, kid: Tree)
    requires Shape(tree, owned) && StopsAt(owned, p, k) && k + |made| + 1 == |p| && q < p
    requires if |q| + 1 == |p| then kid == Leaf(v) else kid.Branch?
    ensures |q| < k ==> p[..|q| + 1] in owned
    ensures Slot(kid, OwnedAfter(owned, p, k, made), q + [p[|q|]]) ==
            if |q| + 1 == |p| then v
            else if |q| < k then Ref(owned[p[..|q| + 1]])
            else Ref(made[|q| - k])
  {
    assert q + [p[|q|]] == p[..|q| + 1];
    if |q| + 1 < |p| {
      SlotDown(tree, owned, p, k, made, q, kid);
    }
  }

  // What an object of the output must hold after `p` is set, given what it held before.
  ghost function HeldAfter(held: map<string, Value>, p: Path, k: nat, made: seq<Obj>, v: Value, q: Path)
    : map<string, Value>
    requires k + |made| + 1 == |p|
  {
    if q == p[..k] then held + Link(p, k, made, v, 0)
    else if q < p && |q| > k then Link(p, k, made, v, |q| - k)
    else held
  }

  lemma AboveStop(tree: Tree, owned: map<Path, Obj>, p: Path, k: nat, q: Path)
    requires Shape(tree, owned) && q < p && |q| < k < |p| && p[..|q| + 1] in owned && IsBranch(tree, q)
    ensures Expected(tree, owned, q) + map[p[|q|] := Ref(owned[p[..|q| + 1]])] == Expected(tree, owned, q)
  {
    assert q + [p[|q|]] == p[..|q| + 1];
    KidAt(tree, q, p[|q|]);
  }

  lemma ExpectedMade(tree: Tree, owned: map<Path, Obj>, p: Path, k: nat, made: seq<Obj>, v: Value, q: Path)
    requires Shape(tree, owned) && StopsAt(owned, p, k) && k + |made| + 1 == |p| && q < p && |q| > k
    ensures IsBranch(Set(tree, p, Leaf(v)), q)
    ensures Expected(Set(tree, p, Leaf(v)), OwnedAfter(owned, p, k, made), q) == Link(p, k, made, v, |q| - k)
  {
    ExpectedOn(tree, owned, p, k, made, v, q);
  }

  lemma HeldIsExpected(tree: Tree, owned: map<Path, Obj>, p: Path, k: nat, made: seq<Obj>, v: Value, q: Path,
                       held: map<string, Value>)
    requires Shape(tree, owned) && StopsAt(owned, p, k) && k + |made| + 1 == |p|
    requires q in OwnedAfter(owned, p, k, made)
    requires q in owned ==> held == Expected(tree, owned, q)
    ensures IsBranch(Set(tree, p, Leaf(v)), q)
    ensures Expected(Set(tree, p, Leaf(v)), OwnedAfter(owned, p, k, made), q) == HeldAfter(held, p, k, made, v, q)
  {
    OwnedKeys(tree, owned, p, k, made, q);
    if q < p {
      ExpectedOn(tree, owned, p, k, made, v, q);
      assert |q| == k ==> q == p[..k];
      if |q| < k {
        AboveStop(tree, owned, p, k, q);
      }
    } else {
      ExpectedOff(tree, owned, p, k, made, v, q);
    }
  }

  // ----- one write -----

  // The tree the output stands for, its own objects by path, and what every object holds.
  datatype Build = Build(tree: Tree, owned: map<Path, Obj>, mem: Memory)

  ghost predicate Private(b: Build, out: Obj, heap: set<Obj>) {
    heap <= b.mem.Keys && Linked(b.tree, b.owned, out, b.mem, heap)
  }

  lemma Relinked(b: Build, out: Obj, heap: set<Obj>, after: Memory, made: seq<Obj>, p: Path, k: nat, value: Value)
    requires Private(b, out, heap)
    requires StopsAt(b.owned, p, k) && Stored(b.mem, after, b.owned[p[..k]], made, p, k, value)
    ensures Private(Build(Set(b.tree, p, Leaf(value)), OwnedAfter(b.owned, p, k, made), after), out, heap)
    ensures forall n :: n in heap ==> after[n] == b.mem[n]
  {
    var tree, grown := Set(b.tree, p, Leaf(value)), OwnedAfter(b.owned, p, k, made);
    ShapeAfter(b.tree, b.owned, p, k, made, value);
    OwnedKeys(b.tree, b.owned, p, k, made, []);
    assert b.owned[[]] == out;
    forall q | q in grown
      ensures grown[q] in after && grown[q] !in heap
      ensures after[grown[q]] == Expected(tree, grown, q)
    {
      if q in b.owned {
        RelinkedKept(b, heap, after, made, p, k, value, q);
      } else {
        RelinkedMade(b, heap, after, made, p, k, value, q);
      }
    }
  }

  // An object the output had keeps what it held, but for the slot on the way.
  lemma RelinkedKept(b: Build, heap: set<Obj>, after: Memory, made: seq<Obj>, p: Path, k: nat, value: Value, q: Path)
    requires Shape(b.tree, b.owned) && heap <= b.mem.Keys
    requires StopsAt(b.owned, p, k) && Stored(b.mem, after, b.owned[p[..k]], made, p, k, value)
    requires q in b.owned && q in OwnedAfter(b.owned, p, k, made)
    requires b.owned[q] in b.mem && b.owned[q] !in heap && b.mem[b.owned[q]] == Expected(b.tree, b.owned, q)
    ensures IsBranch(Set(b.tree, p, Leaf(value)), q)
    ensures var n := OwnedAfter(b.owned, p, k, made)[q];
            && n in after && n !in heap
            && after[n] == Expected(Set(b.tree, p, Leaf(value)), OwnedAfter(b.owned, p, k, made), q)
  {
    OwnedKeys(b.tree, b.owned, p, k, made, q);
    var n := b.owned[q];
    assert OwnedAfter(b.owned, p, k, made)[q] == n;
    HeldAt(b.mem, after, b.owned[p[..k]], made, p, k, value, q, n);
    HeldIsExpected(b.tree, b.owned, p, k, made, value, q, b.mem[n]);
  }

  lemma MadeAt(b: Build, p: Path, k: nat, made: seq<Obj>, q: Path)
    requires Shape(b.tree, b.owned) && StopsAt(b.owned, p, k) && k + |made| + 1 == |p|
    requires q !in b.owned && q in OwnedAfter(b.owned, p, k, made)
    ensures k < |q| && q < p && OwnedAfter(b.owned, p, k, made)[q] == made[|q| - k - 1]
  {
    OwnedKeys(b.tree, b.owned, p, k, made, q);
  }

  lemma LinkedAt(mem: Memory, after: Memory, d: Obj, made: seq<Obj>, p: Path, k: nat, value: Value, j: nat)
    requires Stored(mem, after, d, made, p, k, value) && j < |made|
    ensures made[j] in after && made[j] !in mem && after[made[j]] == Link(p, k, made, value, j + 1)
  {
  }

  // A fresh object holds the next one, or the value.
  lemma RelinkedMade(b: Build, heap: set<Obj>, after: Memory, made: seq<Obj>, p: Path, k: nat, value: Value, q: Path)
    requires Shape(b.tree, b.owned) && heap <= b.mem.Keys
    requires StopsAt(b.owned, p, k) && Stored(b.mem, after, b.owned[p[..k]], made, p, k, value)
    requires q !in b.owned && q in OwnedAfter(b.owned, p, k, made)
    ensures IsBranch(Set(b.tree, p, Leaf(value)), q)
    ensures var n := OwnedAfter(b.owned, p, k, made)[q];
            && n in after && n !in heap
            && after[n] == Expected(Set(b.tree, p, Leaf(value)), OwnedAfter(b.owned, p, k, made), q)
  {
    MadeAt(b, p, k, made, q);
    ExpectedMade(b.tree, b.owned, p, k, made, value, q);
    LinkedAt(b.mem, after, b.owned[p[..k]], made, p, k, value, |q| - k - 1);
  }

  lemma HeldAt(mem: Memory, after: Memory, d: Obj, made: seq<Obj>, p: Path, k: nat, value: Value, q: Path, n: Obj)
    requires Stored(mem, after, d, made, p, k, value)
    requires if q < p && |q| > k then n == made[|q| - k - 1] else n in mem && (n == d <==> q == p[..k])
    ensures n in after && (n in mem <==> !(q < p && |q| > k))
    ensures after[n] == HeldAfter(if n in mem then mem[n] else map[], p, k, made, value, q)
  {
  }

  // setPath on an output that shares nothing on the way: only the output's own objects are
  // written, and it then stands for the tree with the path set.
  lemma StoredStandsFor(b: Build, out: Obj, heap: set<Obj>, after: Memory, made: seq<Obj>, p: Path, value: Value)
    returns (next: Build)
    requires Private(b, out, heap) && Clear(b.tree, p) && p != []
    requires var (d, k) := Reach(b.mem, out, p); Stored(b.mem, after, d, made, p, k, value)
    ensures next.tree == Set(b.tree, p, Leaf(value)) && next.mem == after && Private(next, out, heap)
    ensures forall n :: n in heap ==> after[n] == b.mem[n]
  {
    var k := Reach(b.mem, out, p).1;
    ReachLinked(b.tree, b.owned, out, b.mem, heap, p);
    Relinked(b, out, heap, after, made, p, k, value);
    next := Build(Set(b.tree, p, Leaf(value)), OwnedAfter(b.owned, p, k, made), after);
  }

  // ----- when a write does reach the source -----

  // Content closed under references stays closed when more objects come into play.
  ghost predicate ClosedIn(heap: set<Obj>, mem: Memory) {
    heap <= mem.Keys && forall n, k :: n in heap && k in mem[n] && mem[n][k].Ref? ==> mem[n][k].obj in heap
  }

  lemma {:induction false} ReachStaysIn(heap: set<Obj>, mem: Memory, n: Obj, p: Path)
    requires ClosedIn(heap, mem) && n in heap && p != []
    ensures Reach(mem, n, p).0 in heap
    decreases |p|
  {
    if |p| > 1 && p[0] in mem[n] && mem[n][p[0]].Ref? {
      ReachStaysIn(heap, mem, mem[n][p[0]].obj, p[1..]);
    }
  }

  lemma {:induction false} ReachShared(b: Build, out: Obj, heap: set<Obj>, p: Path, q: Path, i: nat)
    requires Private(b, out, heap) && ClosedIn(heap, b.mem)
    requires q < p && SharesAt(b.tree, q) && Get(b.tree, q).value.value.obj in heap
    requires i < |q| && p[..i] in b.owned
    ensures Reach(b.mem, b.owned[p[..i]], p[i..]).0 in heap
    decreases |q| - i
  {
    var n := b.owned[p[..i]];
    assert p[i..][0] == p[i] && p[i..][1..] == p[i + 1..];
    assert p[..i + 1] == p[..i] + [p[i]];
    assert b.mem[n] == Expected(b.tree, b.owned, p[..i]);
    KidAt(b.tree, p[..i], p[i]);
    if i + 1 == |q| {
      assert q == p[..i + 1];
      ReachStaysIn(heap, b.mem, b.mem[n][p[i]].obj, p[i + 1..]);
    } else {
      OnTheWay(b.tree, q, i + 1);
      assert q[..i + 1] == p[..i + 1];
      ReachShared(b, out, heap, p, q, i + 1);
    }
  }

  lemma OnTheWay(tree: Tree, q: Path, i: nat)
    requires SharesAt(tree, q) && i < |q|
    ensures IsBranch(tree, q[..i])
  {
    GetSplit(tree, q[..i], q[i..]);
    assert q[..i] + q[i..] == q;
  }

  // A write at `p` hits an object of the source if and only if the output holds one on the way.
  lemma WritesSourceIff(b: Build, out: Obj, heap: set<Obj>, p: Path)
    requires Private(b, out, heap) && ClosedIn(heap, b.mem) && p != []
    requires forall q :: SharesAt(b.tree, q) ==> Get(b.tree, q).value.value.obj in heap
    ensures Written(b.mem, out, p) <= heap <==> !Clear(b.tree, p)
  {
    assert p[0..] == p && p[..0] == [];
    if Clear(b.tree, p) {
      ReachLinked(b.tree, b.owned, out, b.mem, heap, p);
    } else {
      var q :| q < p && SharesAt(b.tree, q);
      assert q != [];
      ReachShared(b, out, heap, p, q, 0);
    }
  }

  // What the finished output holds at a path is what its tree says.
  lemma {:induction false} OutputReads(b: Build, out: Obj, heap: set<Obj>, p: Path, v: Value, i: nat)
    requires Private(b, out, heap) && Get(b.tree, p) == Some(Leaf(v))
    requires i <= |p| && p[..i] in b.owned
    ensures Read(b.mem, Ref(b.owned[p[..i]]), p[i..]) == v
    decreases |p| - i
  {
    assert p[..i] + p[i..] == p;
    GetSplit(b.tree, p[..i], p[i..]);
    if i < |p| {
      assert p[..i + 1] == p[..i] + [p[i]] && p[..i + 1] + p[i + 1..] == p;
      assert p[i..][1..] == p[i + 1..];
      KidAt(b.tree, p[..i], p[i]);
      GetSplit(b.tree, p[..i + 1], p[i + 1..]);
      assert b.mem[b.owned[p[..i]]] == Expected(b.tree, b.owned, p[..i]);
      if p[..i + 1] in b.owned {
        OutputReads(b, out, heap, p, v, i + 1);
      }
    }
  }
}
