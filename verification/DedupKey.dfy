// packages/core/src/id/dedup-key.ts: the canonical key of an `entity_xref` row.
module DedupKey {
  import opened Common

  datatype Parts = Parts(
    environment: string,
    connectionId: string,
    entityType: string,
    sourceSystem: string,
    sourceId: string)

  const SEPARATOR := '|'

  // A component the key accepts: not empty, and free of the reserved separator.
  predicate Component(v: string) {
    v != "" && SEPARATOR !in v
  }

  predicate Accepted(p: Parts) {
    && Component(p.environment)
    && Component(p.connectionId)
    && Component(p.entityType)
    && Component(p.sourceSystem)
    && Component(p.sourceId)
  }

  function Join(vs: seq<string>): string
    requires vs != []
  {
    if |vs| == 1 then vs[0] else vs[0] + [SEPARATOR] + Join(vs[1..])
  }

  function Components(p: Parts): seq<string> {
    [p.environment, p.connectionId, p.entityType, p.sourceSystem, p.sourceId]
  }

  function KeyString(p: Parts): string {
    Join(Components(p))
  }

  // dedupKey: the string, or the error it throws on a component it does not accept.
  function Key(p: Parts): Result<string, string> {
    if Accepted(p) then Ok(KeyString(p)) else Err("dedupKey: component rejected")
  }

  // The key is printed from the five components, in this order and with a bar between them; it
  // throws exactly when one of them is empty or holds a bar.
  lemma KeySays(p: Parts)
    ensures Key(p).Ok? <==>
              && p.environment != "" && '|' !in p.environment
              && p.connectionId != "" && '|' !in p.connectionId
              && p.entityType != "" && '|' !in p.entityType
              && p.sourceSystem != "" && '|' !in p.sourceSystem
              && p.sourceId != "" && '|' !in p.sourceId
    ensures Key(p).Ok? ==>
              Key(p).value ==
              p.environment + "|" + p.connectionId + "|" + p.entityType + "|" + p.sourceSystem + "|" + p.sourceId
  {
    var d := p.sourceSystem + "|" + p.sourceId;
    JoinFirst(p.sourceSystem, [p.sourceId]);
    JoinFirst(p.entityType, [p.sourceSystem, p.sourceId]);
    JoinFirst(p.connectionId, [p.entityType, p.sourceSystem, p.sourceId]);
    JoinFirst(p.environment, [p.connectionId, p.entityType, p.sourceSystem, p.sourceId]);
    assert Join([p.sourceId]) == p.sourceId;
    assert p.entityType + "|" + d == p.entityType + "|" + p.sourceSystem + "|" + p.sourceId;
    assert p.connectionId + "|" + (p.entityType + "|" + d) ==
           p.connectionId + "|" + p.entityType + "|" + p.sourceSystem + "|" + p.sourceId;
  }

  lemma JoinFirst(v: string, vs: seq<string>)
    requires vs != []
    ensures Join([v] + vs) == v + "|" + Join(vs)
  {
    assert ([v] + vs)[1..] == vs;
  }

  lemma HeadAt(a: string, b: string, i: nat)
    requires i <= |a|
    ensures (a + [SEPARATOR] + b)[i] == if i < |a| then a[i] else SEPARATOR
  {
  }

  // The first separator of a string splits it in only one way.
  lemma SplitUnique(a: string, b: string, c: string, d: string)
    requires SEPARATOR !in a && SEPARATOR !in c
    requires a + [SEPARATOR] + b == c + [SEPARATOR] + d
    ensures a == c && b == d
  {
    var n := if |a| <= |c| then |a| else |c|;
    HeadAt(a, b, n);
    HeadAt(c, d, n);
    var s, t := a + [SEPARATOR] + b, c + [SEPARATOR] + d;
    assert s[..|a|] == a && t[..|c|] == c;
    assert s[|a| + 1..] == b && t[|c| + 1..] == d;
  }

  lemma {:induction false} JoinInjective(us: seq<string>, vs: seq<string>)
    requires |us| == |vs| > 0
    requires forall u :: u in us ==> SEPARATOR !in u
    requires forall v :: v in vs ==> SEPARATOR !in v
    requires Join(us) == Join(vs)
    ensures us == vs
  {
    if |us| > 1 {
      SplitUnique(us[0], Join(us[1..]), vs[0], Join(vs[1..]));
      JoinInjective(us[1..], vs[1..]);
      assert us == [us[0]] + us[1..] && vs == [vs[0]] + vs[1..];
    }
  }

  // Two keys the function accepts are equal only for the same five components, so the
  // string-keyed store and the five-column primary key tell exactly the same rows apart.
  lemma KeyInjective(p: Parts, q: Parts)
    requires Key(p).Ok? && Key(p) == Key(q)
    ensures p == q
  {
    JoinInjective(Components(p), Components(q));
    assert Components(p)[0] == Components(q)[0];
    assert Components(p)[1] == Components(q)[1];
    assert Components(p)[2] == Components(q)[2];
    assert Components(p)[3] == Components(q)[3];
    assert Components(p)[4] == Components(q)[4];
  }
}
