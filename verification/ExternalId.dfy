// packages/netsuite-client/src/external-id.ts: the NetSuite external id of a Shopify GID.
module ExternalId {
  import opened Common
  import DedupKey

  predicate Letter(c: char) {
    'A' <= c <= 'Z' || 'a' <= c <= 'z'
  }

  predicate Digit(c: char) {
    '0' <= c <= '9'
  }

  predicate UrlSafe(c: char) {
    Letter(c) || Digit(c) || c == '_' || c == '-'
  }

  predicate Letters(s: string) {
    s != "" && forall k :: 0 <= k < |s| ==> Letter(s[k])
  }

  predicate Digits(s: string) {
    s != "" && forall k :: 0 <= k < |s| ==> Digit(s[k])
  }

  predicate AllSafe(s: string) {
    forall k :: 0 <= k < |s| ==> UrlSafe(s[k])
  }

  function LowerChar(c: char): char {
    if 'A' <= c <= 'Z' then c - 'A' + 'a' else c
  }

  function Lower(s: string): (r: string)
    ensures |r| == |s|
  {
    seq(|s|, k requires 0 <= k < |s| => LowerChar(s[k]))
  }

  const PREFIX := "gid://shopify/"

  function Gid(kind: string, num: string): string {
    PREFIX + kind + "/" + num
  }

  // The index of the first slash, or the length.
  function Slash(s: string): (i: nat)
    ensures i <= |s| && (forall k :: 0 <= k < i ==> s[k] != '/') && (i < |s| ==> s[i] == '/')
  {
    if s == "" || s[0] == '/' then 0 else 1 + Slash(s[1..])
  }

  // The two captures of the expression that recognises a Shopify GID.
  function Match(s: string): (m: Option<(string, string)>)
    ensures m.Some? ==> Letters(m.value.0) && Digits(m.value.1) && s == Gid(m.value.0, m.value.1)
  {
    if |s| < |PREFIX| || s[..|PREFIX|] != PREFIX then None
    else
      var rest := s[|PREFIX|..];
      var i := Slash(rest);
      if i < |rest| && Letters(rest[..i]) && Digits(rest[i + 1..]) then
        assert s == Gid(rest[..i], rest[i + 1..]);
        Some((rest[..i], rest[i + 1..]))
      else None
  }

  function Escape(s: string): (r: string)
    ensures |r| == |s|
  {
    seq(|s|, k requires 0 <= k < |s| => if UrlSafe(s[k]) then s[k] else '-')
  }

  // shopifyGidToNsExternalId.
  function Translate(externalId: string): string {
    match Match(externalId)
    case Some((kind, num)) => "shopify-" + Lower(kind) + "-" + num
    case None => Escape(externalId)
  }

  // Every GID is recognised, by its own parts.
  lemma MatchGid(kind: string, num: string)
    requires Letters(kind) && Digits(num)
    ensures Match(Gid(kind, num)) == Some((kind, num))
  {
    var s := Gid(kind, num);
    var rest := s[|PREFIX|..];
    assert s[..|PREFIX|] == PREFIX && rest == kind + "/" + num;
    var i := Slash(rest);
    assert rest[|kind|] == '/' && forall k :: 0 <= k < |kind| ==> rest[k] == kind[k] && Letter(kind[k]);
    assert i == |kind| && rest[..i] == kind && rest[i + 1..] == num;
  }

  // A GID becomes its kind in lower case and its number, behind the prefix.
  lemma GidTranslates(kind: string, num: string)
    requires Letters(kind) && Digits(num)
    ensures var t := Translate("gid://shopify/" + kind + "/" + num);
            && |t| == 9 + |kind| + |num|
            && t[..8] == "shopify-" && t[8 + |kind|..] == "-" + num
            && forall k :: 0 <= k < |kind| ==>
                 t[8 + k] == if 'A' <= kind[k] <= 'Z' then kind[k] - 'A' + 'a' else kind[k]
  {
    MatchGid(kind, num);
    assert "gid://shopify/" + kind + "/" + num == Gid(kind, num);
    var t := "shopify-" + Lower(kind) + "-" + num;
    assert t[8..][..|kind|] == Lower(kind);
  }

  // Any other id keeps its letters, digits, `_` and `-`, and gets a `-` for every other character.
  lemma OthersEscape(s: string)
    ensures Match(s).None? ==>
              && |Translate(s)| == |s|
              && forall k :: 0 <= k < |s| ==>
                   Translate(s)[k] ==
                   if 'a' <= s[k] <= 'z' || 'A' <= s[k] <= 'Z' || '0' <= s[k] <= '9' || s[k] in "_-" then s[k] else '-'
  {
  }

  lemma OrderInstance()
    ensures Translate("gid://shopify/" + "Order" + "/" + "12345") == "shopify-" + "order" + "-" + "12345"
  {
    assert PREFIX + "Order" + "/" + "12345" == Gid("Order", "12345");
    MatchGid("Order", "12345");
    assert Lower("Order") == "order";
  }

  // The dedup key takes every GID for a source id.
  lemma GidIsAccepted(p: DedupKey.Parts, kind: string, num: string)
    requires Letters(kind) && Digits(num)
    ensures DedupKey.Key(p.(sourceId := Gid(kind, num))).Ok? <==> DedupKey.Key(p.(sourceId := "1")).Ok?
  {
    assert forall c :: c in Gid(kind, num) ==> c in PREFIX || Letter(c) || c == '/' || Digit(c);
  }

  // Only characters a URL path segment can hold are ever produced.
  lemma OnlySafe(s: string)
    ensures AllSafe(Translate(s))
  {
    if Match(s).Some? {
      var (kind, num) := Match(s).value;
      forall k | 0 <= k < |kind|
        ensures UrlSafe(Lower(kind)[k])
      {
        assert Letter(kind[k]);
      }
      forall k | 0 <= k < |num|
        ensures UrlSafe(num[k])
      {
        assert Digit(num[k]);
      }
      assert AllSafe("shopify-") && AllSafe(Lower(kind)) && AllSafe("-") && AllSafe(num);
    }
  }

  predicate LowerSafe(c: char) {
    'a' <= c <= 'z' || Digit(c) || c == '-'
  }

  predicate Upper(c: char) {
    'A' <= c <= 'Z'
  }

  lemma LowerIsLowerSafe(kind: string)
    requires Letters(kind)
    ensures forall c :: c in Lower(kind) ==> LowerSafe(c)
  {
    forall k | 0 <= k < |kind|
      ensures LowerSafe(Lower(kind)[k])
    {
      assert Letter(kind[k]);
    }
  }

  // The narrower set the source documents, lower-case letters, digits and `-`, is what comes out
  // if and only if the id is a GID or holds neither an upper-case letter nor `_`.
  lemma LowerCaseIff(s: string)
    ensures (forall c :: c in Translate(s) ==> LowerSafe(c)) <==>
            Match(s).Some? || forall c :: c in s ==> !Upper(c) && c != '_'
  {
    if Match(s).Some? {
      var (kind, num) := Match(s).value;
      LowerIsLowerSafe(kind);
      assert forall c :: c in num ==> Digit(c);
      assert forall c :: c in "shopify-" ==> LowerSafe(c);
    } else {
      forall k | 0 <= k < |s|
        ensures Translate(s)[k] == (if UrlSafe(s[k]) then s[k] else '-')
        ensures LowerSafe(Translate(s)[k]) <==> !Upper(s[k]) && s[k] != '_'
      {
      }
      if c :| c in s && (Upper(c) || c == '_') {
        assert exists k :: 0 <= k < |s| && s[k] == c && !LowerSafe(Translate(s)[k]);
      }
    }
  }

  lemma GidsAreUnsafe(s: string)
    ensures Match(s).Some? ==> !AllSafe(s)
  {
    if Match(s).Some? {
      assert s[3] == ':' && !UrlSafe(s[3]);
    }
  }

  // Translating an id that is translated already changes nothing.
  lemma Idempotent(s: string)
    ensures Translate(Translate(s)) == Translate(s)
  {
    var t := Translate(s);
    OnlySafe(s);
    GidsAreUnsafe(t);
    assert Escape(t) == t;
  }

  lemma Parts(a: string, n: string, b: string, m: string)
    requires Letters(a) && Letters(b)
    requires a + "-" + n == b + "-" + m
    ensures a == b && n == m
  {
    var s := a + "-" + n;
    var i := if |a| <= |b| then |a| else |b|;
    PartAt(a, n, i);
    PartAt(b, m, i);
    assert s[..|a|] == a && s[|a| + 1..] == n;
    assert (b + "-" + m)[..|b|] == b && (b + "-" + m)[|b| + 1..] == m;
  }

  lemma PartAt(a: string, n: string, i: nat)
    requires i <= |a|
    ensures (a + "-" + n)[i] == if i < |a| then a[i] else '-'
  {
  }

  // Two Shopify GIDs have the same external id if and only if they have the same number and the
  // same kind up to the case of its letters.
  lemma GidsCollideIff(kind: string, num: string, other: string, num': string)
    requires Letters(kind) && Digits(num) && Letters(other) && Digits(num')
    ensures Translate(Gid(kind, num)) == Translate(Gid(other, num')) <==> Lower(kind) == Lower(other) && num == num'
  {
    MatchGid(kind, num);
    MatchGid(other, num');
    var s, t := "shopify-" + Lower(kind) + "-" + num, "shopify-" + Lower(other) + "-" + num';
    if s == t {
      assert s[8..] == Lower(kind) + "-" + num && t[8..] == Lower(other) + "-" + num';
      LowerLetters(kind);
      LowerLetters(other);
      Parts(Lower(kind), num, Lower(other), num');
    }
  }

  lemma LowerLetters(s: string)
    requires Letters(s)
    ensures Letters(Lower(s))
  {
    forall k | 0 <= k < |s|
      ensures Letter(Lower(s)[k])
    {
      assert Letter(s[k]);
    }
  }
}
