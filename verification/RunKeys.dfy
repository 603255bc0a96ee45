/** The keys that say which runs must not overlap, and why no two meanings share a key. */
module RunKeys {
  import opened JsonText

  datatype Owner = Owner(appId: Text, tenantId: Text, userId: Text)

  datatype Kind = Workspace | Session

  const COLON: CodeUnit := 0x3A

  function Decimal(n: nat): (t: Text)
    ensures t != [] && COLON !in t
  {
    if n < 10 then [0x30 + n] else Decimal(n / 10) + [0x30 + n % 10]
  }

  /** `${s.length}:${s}`. */
  function Sized(s: Text): Text { Decimal(|s|) + [COLON] + s }

  /** `ownerQueuePrefix`. */
  function OwnerPrefix(o: Owner): Text {
    Sized(o.appId) + [COLON] + Sized(o.tenantId) + [COLON] + Sized(o.userId)
  }

  function KindName(k: Kind): Text {
    match k
    case Workspace => [0x77, 0x6F, 0x72, 0x6B, 0x73, 0x70, 0x61, 0x63, 0x65]
    case Session => [0x73, 0x65, 0x73, 0x73, 0x69, 0x6F, 0x6E]
  }

  /** The part of a key after the owner, `:workspace:<id>` or `:session:<id>`. */
  function Resource(k: Kind, id: Text): Text { [COLON] + (KindName(k) + [COLON] + id) }

  function QueueKey(o: Owner, k: Kind, id: Text): Text { OwnerPrefix(o) + Resource(k, id) }

  function DecimalValue(t: Text): int {
    if t == [] then 0 else DecimalValue(t[..|t| - 1]) * 10 + t[|t| - 1] - 0x30
  }

  lemma {:induction false} DecimalReads(n: nat)
    ensures DecimalValue(Decimal(n)) == n
  {
    var t := Decimal(n);
    if n < 10 {
      assert t[..|t| - 1] == [];
    } else {
      DecimalReads(n / 10);
      assert t[..|t| - 1] == Decimal(n / 10);
    }
  }

  /** Two texts split at their first colon agree on both sides. */
  lemma {:induction false} FirstColon(a: Text, x: Text, b: Text, y: Text)
    requires COLON !in a && COLON !in b && a + [COLON] + x == b + [COLON] + y
    ensures a == b && x == y
  {
    var l, r := a + [COLON] + x, b + [COLON] + y;
    assert l[|a|] == COLON && r[|b|] == COLON;
    if |a| < |b| {
      assert false;
    } else if |b| < |a| {
      assert false;
    }
    assert a == l[..|a|] == r[..|b|] == b;
    assert x == l[|a| + 1..] == r[|b| + 1..] == y;
  }

  /** A sized text marks its own end. */
  lemma SizedSplits(s: Text, x: Text, t: Text, y: Text)
    requires Sized(s) + x == Sized(t) + y
    ensures s == t && x == y
  {
    assert Sized(s) + x == Decimal(|s|) + [COLON] + (s + x);
    assert Sized(t) + y == Decimal(|t|) + [COLON] + (t + y);
    FirstColon(Decimal(|s|), s + x, Decimal(|t|), t + y);
    DecimalReads(|s|);
    DecimalReads(|t|);
    assert s == (s + x)[..|s|] == (t + y)[..|t|] == t;
    assert x == (s + x)[|s|..] == (t + y)[|t|..] == y;
  }

  lemma SizedFieldSplits(s: Text, x: Text, t: Text, y: Text)
    requires Sized(s) + ([COLON] + x) == Sized(t) + ([COLON] + y)
    ensures s == t && x == y
  {
    SizedSplits(s, [COLON] + x, t, [COLON] + y);
    assert x == ([COLON] + x)[1..] == ([COLON] + y)[1..] == y;
  }

  lemma PrefixFields(o: Owner, x: Text)
    ensures OwnerPrefix(o) + x == Sized(o.appId) + ([COLON] + (Sized(o.tenantId) + ([COLON] + (Sized(o.userId) + x))))
  {}

  lemma OwnerSplits(o: Owner, x: Text, p: Owner, y: Text)
    requires OwnerPrefix(o) + x == OwnerPrefix(p) + y
    ensures o == p && x == y
  {
    var o2, p2 := Sized(o.userId) + x, Sized(p.userId) + y;
    PrefixFields(o, x);
    PrefixFields(p, y);
    SizedFieldSplits(o.appId, Sized(o.tenantId) + ([COLON] + o2), p.appId, Sized(p.tenantId) + ([COLON] + p2));
    SizedFieldSplits(o.tenantId, o2, p.tenantId, p2);
    SizedSplits(o.userId, x, p.userId, y);
  }

  lemma ResourceSplits(k: Kind, id: Text, l: Kind, jd: Text)
    requires Resource(k, id) == Resource(l, jd)
    ensures k == l && id == jd
  {
    assert Resource(k, id)[1..] == KindName(k) + [COLON] + id;
    assert Resource(l, jd)[1..] == KindName(l) + [COLON] + jd;
    FirstColon(KindName(k), id, KindName(l), jd);
    assert |KindName(Workspace)| != |KindName(Session)|;
  }

  /** Queue keys are equal exactly when owner, kind and identifier all are. */
  lemma QueueKeysCollideOnlyIfEqual(o: Owner, k: Kind, id: Text, p: Owner, l: Kind, jd: Text)
    ensures QueueKey(o, k, id) == QueueKey(p, l, jd) <==> o == p && k == l && id == jd
  {
    if QueueKey(o, k, id) == QueueKey(p, l, jd) {
      OwnerSplits(o, Resource(k, id), p, Resource(l, jd));
      ResourceSplits(k, id, l, jd);
    }
  }
}
