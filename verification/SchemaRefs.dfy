/**
 Factoring of the published schemas: each occurrence of a named schema inside another is
 replaced by a reference, and expanding the references gives every schema back.
 */
module SchemaRefs {
  import opened Wrappers
  import opened JsonText
  import opened JsValues

  /** The named schemas in the order of their declaration. */
  type Document = seq<Member>

  const REF: Text := [0x24, 0x72, 0x65, 0x66]
  /** `#/components/schemas/` */
  const REF_PREFIX: Text :=
    [0x23, 0x2F, 0x63, 0x6F, 0x6D, 0x70, 0x6F, 0x6E, 0x65, 0x6E, 0x74, 0x73, 0x2F,
     0x73, 0x63, 0x68, 0x65, 0x6D, 0x61, 0x73, 0x2F]

  // ---- rewriting

  /**
   `canonicalSchemas.get`: the name of a schema. A later name of an identical schema overwrites
   an earlier one. Schemas are compared by their printed text, which for cloned JSON is the tree.
   */
  function Canonical(doc: Document, node: JsValue): (name: Option<Text>)
    ensures name.Some? ==> exists m :: m in doc && m.key == name.value && m.value == node
    ensures name.None? ==> forall m | m in doc :: m.value != node
  {
    if doc == [] then None
    else if doc[|doc| - 1].value == node then
      assert doc[|doc| - 1] in doc;
      Some(doc[|doc| - 1].key)
    else
      assert doc == doc[..|doc| - 1] + [doc[|doc| - 1]];
      Canonical(doc[..|doc| - 1], node)
  }

  /** The name that replaces a node of `owner`'s schema; the empty name counts as none. */
  function Referenced(doc: Document, node: JsValue, owner: Text): Option<Text> {
    if !node.Obj? then None else
    var name := Canonical(doc, node);
    if name.None? || name.value == [] || name.value == owner then None else name
  }

  function Ref(name: Text): JsValue { Obj([Member(REF, Str(REF_PREFIX + name))], true) }

  /** `rewriteSchemaReferences`. */
  function Rewrite(doc: Document, node: JsValue, owner: Text): JsValue
    decreases node
  {
    var name := Referenced(doc, node, owner);
    if name.Some? then Ref(name.value) else
    match node
    case Arr(items) => Arr(seq(|items|, i requires 0 <= i < |items| => Rewrite(doc, items[i], owner)))
    case Obj(ms, _) =>
      Obj(seq(|ms|, i requires 0 <= i < |ms| => Member(ms[i].key, Rewrite(doc, ms[i].value, owner))), true)
    case _ => node
  }

  /** `components.schemas`. */
  function Components(doc: Document): (cs: Document)
    ensures |cs| == |doc|
    ensures forall i | 0 <= i < |doc| ::
      cs[i] == Member(doc[i].key, Rewrite(doc, doc[i].value, doc[i].key))
  {
    seq(|doc|, i requires 0 <= i < |doc| => Member(doc[i].key, Rewrite(doc, doc[i].value, doc[i].key)))
  }

  // ---- expanding

  ghost predicate Named(doc: Document, name: Text) { exists m :: m in doc && m.key == name }

  /** What a reference node points at: an object whose only member is `$ref` with the prefix. */
  function Target(node: JsValue): Option<Text> {
    if node.Obj? && |node.members| == 1 && node.members[0].key == REF && node.members[0].value.Str?
       && REF_PREFIX <= node.members[0].value.text
    then Some(node.members[0].value.text[|REF_PREFIX|..]) else None
  }

  ghost predicate IsReference(doc: Document, node: JsValue) { Target(node).Some? && Named(doc, Target(node).value) }

  function All<T>(xs: seq<Option<T>>): (r: Option<seq<T>>)
    ensures r.Some? <==> forall x | x in xs :: x.Some?
    ensures r.Some? ==> |r.value| == |xs| && forall i | 0 <= i < |xs| :: xs[i] == Some(r.value[i])
  {
    if forall i | 0 <= i < |xs| :: xs[i].Some?
    then
      Some(seq(|xs|, i requires 0 <= i < |xs| => xs[i].value))
    else None
  }

  /** The tree with every reference replaced by what it names; `None` when they nest deeper than `fuel`. */
  ghost function Expand(doc: Document, node: JsValue, fuel: nat): Option<JsValue>
    decreases fuel, node
  {
    if IsReference(doc, node) then
      if fuel == 0 then None else Expand(doc, Lookup(doc, Target(node).value), fuel - 1)
    else
      match node
      case Arr(items) =>
        var xs := All(seq(|items|, i requires 0 <= i < |items| => Expand(doc, items[i], fuel)));
        if xs.Some? then Some(Arr(xs.value)) else None
      case Obj(ms, _) =>
        var xs := All(seq(|ms|, i requires 0 <= i < |ms| => Expand(doc, ms[i].value, fuel)));
        if xs.Some?
        then Some(Obj(seq(|ms|, i requires 0 <= i < |ms| => Member(ms[i].key, xs.value[i])), true))
        else None
      case _ => Some(node)
  }

  // ---- the trees the generator works on

  /** What `JSON.parse(JSON.stringify(schema))` gives: plain JSON all the way down. */
  ghost predicate Cloned(v: JsValue) {
    match v
    case Arr(items) => forall x | x in items :: Cloned(x)
    case Obj(ms, plain) => plain && forall m | m in ms :: Cloned(m.value)
    case _ => !v.Undefined? && !v.NonFinite? && !v.Foreign?
  }

  /** No node of the tree already is a reference to a named schema. */
  ghost predicate FreeOfReferences(doc: Document, v: JsValue) {
    && !IsReference(doc, v)
    && match v
       case Arr(items) => forall x | x in items :: FreeOfReferences(doc, x)
       case Obj(ms, _) => forall m | m in ms :: FreeOfReferences(doc, m.value)
       case _ => true
  }

  /** Objects nest at most `k` deep. */
  predicate NestsWithin(v: JsValue, k: nat)
    decreases v
  {
    match v
    case Arr(items) => forall x | x in items :: NestsWithin(x, k)
    case Obj(ms, _) => k > 0 && forall i | 0 <= i < |ms| :: NestsWithin(ms[i].value, k - 1)
    case _ => true
  }

  ghost predicate Published(doc: Document) {
    DistinctKeys(doc) && forall m | m in doc :: m.value.Obj? && Cloned(m.value)
  }

  // ---- expanding undoes rewriting

  lemma {:induction false} LookupFinds(doc: Document, i: nat)
    requires DistinctKeys(doc) && i < |doc|
    ensures Lookup(doc, doc[i].key) == doc[i].value
  {
    if i > 0 { LookupFinds(doc[1..], i - 1); }
  }

  lemma RefTarget(name: Text)
    ensures Target(Ref(name)) == Some(name)
  {
    assert (REF_PREFIX + name)[|REF_PREFIX|..] == name;
  }

  /** A reference to a named schema points at that schema's component. */
  lemma RefPointsAtComponent(doc: Document, node: JsValue, name: Text)
    requires DistinctKeys(doc) && Canonical(doc, node) == Some(name)
    ensures Target(Ref(name)) == Some(name) && IsReference(Components(doc), Ref(name))
    ensures Lookup(Components(doc), name) == Rewrite(doc, node, name)
  {
    var cs := Components(doc);
    RefTarget(name);
    var i :| 0 <= i < |doc| && doc[i].key == name && doc[i].value == node;
    assert cs[i] in cs;
    LookupFinds(cs, i);
  }

  lemma SameNames(doc: Document, name: Text)
    ensures Named(Components(doc), name) <==> Named(doc, name)
  {
    var cs := Components(doc);
    if m :| m in doc && m.key == name {
      var i :| 0 <= i < |doc| && doc[i] == m;
      assert cs[i] in cs;
    }
    if m :| m in cs && m.key == name {
      var i :| 0 <= i < |cs| && cs[i] == m;
      assert doc[i] in doc;
    }
  }

  /** A node that is not replaced is a reference after rewriting only if it was one before. */
  lemma RewriteMakesNoOther(doc: Document, node: JsValue, owner: Text)
    requires !IsReference(doc, node) && Referenced(doc, node, owner).None?
    ensures !IsReference(Components(doc), Rewrite(doc, node, owner))
  {
    var w := Rewrite(doc, node, owner);
    if Target(w).Some? {
      assert w.members[0] == Member(node.members[0].key, Rewrite(doc, node.members[0].value, owner));
      assert Target(node) == Target(w);
      SameNames(doc, Target(w).value);
    }
  }

  lemma ExpandOneReference(doc: Document, node: JsValue, name: Text, fuel: nat)
    requires DistinctKeys(doc) && Canonical(doc, node) == Some(name) && fuel > 0
    ensures Expand(Components(doc), Ref(name), fuel) == Expand(Components(doc), Rewrite(doc, node, name), fuel - 1)
  {
    RefPointsAtComponent(doc, node, name);
  }

  lemma {:induction false} Deeper(v: JsValue, k: nat)
    requires NestsWithin(v, k)
    ensures NestsWithin(v, k + 1)
    decreases v
  {
    match v
    case Arr(items) => forall x | x in items ensures NestsWithin(x, k + 1) { Deeper(x, k); }
    case Obj(ms, _) =>
      forall i | 0 <= i < |ms| ensures NestsWithin(ms[i].value, k) { Deeper(ms[i].value, k - 1); }
    case _ =>
  }

  predicate ChildrenNestWithin(v: JsValue, k: nat) {
    match v
    case Arr(items) => forall x | x in items :: NestsWithin(x, k)
    case Obj(ms, _) => forall i | 0 <= i < |ms| :: NestsWithin(ms[i].value, k)
    case _ => true
  }

  lemma ChildrenNest(v: JsValue, k: nat)
    requires NestsWithin(v, k)
    ensures ChildrenNestWithin(v, k)
    ensures v.Obj? ==> k > 0 && ChildrenNestWithin(v, k - 1)
  {
    if v.Obj? {
      forall i | 0 <= i < |v.members| ensures NestsWithin(v.members[i].value, k) {
        Deeper(v.members[i].value, k - 1);
      }
    }
  }

  /** Expanding a rewritten tree gives the tree back, with no more fuel than its objects nest deep. */
  lemma {:induction false} ExpandInvertsRewrite(doc: Document, v: JsValue, owner: Text, fuel: nat)
    requires DistinctKeys(doc) && Cloned(v) && FreeOfReferences(doc, v) && NestsWithin(v, fuel)
    ensures Expand(Components(doc), Rewrite(doc, v, owner), fuel) == Some(v)
    decreases v, 1
  {
    var name := Referenced(doc, v, owner);
    ChildrenNest(v, fuel);
    if name.Some? {
      ExpandKept(doc, v, name.value, fuel - 1);
      ExpandOneReference(doc, v, name.value, fuel);
    } else {
      ExpandKept(doc, v, owner, fuel);
    }
  }

  /** The case of a node that keeps its place, with fuel enough for its children. */
  lemma {:induction false} ExpandKept(doc: Document, v: JsValue, owner: Text, fuel: nat)
    requires DistinctKeys(doc) && Cloned(v) && FreeOfReferences(doc, v) && Referenced(doc, v, owner).None?
    requires ChildrenNestWithin(v, fuel)
    ensures Expand(Components(doc), Rewrite(doc, v, owner), fuel) == Some(v)
    decreases v, 0
  {
    var cs, w := Components(doc), Rewrite(doc, v, owner);
    RewriteMakesNoOther(doc, v, owner);
    match v
    case Arr(items) =>
      forall i | 0 <= i < |items| ensures Expand(cs, w.items[i], fuel) == Some(items[i]) {
        assert items[i] in items;
        ExpandInvertsRewrite(doc, items[i], owner, fuel);
      }
      assert Expand(cs, w, fuel).value.items == items;
    case Obj(ms, _) =>
      forall i | 0 <= i < |ms| ensures Expand(cs, w.members[i].value, fuel) == Some(ms[i].value) {
        assert ms[i] in ms;
        ExpandInvertsRewrite(doc, ms[i].value, owner, fuel);
      }
      assert Expand(cs, w, fuel).value.members == ms;
    case _ =>
  }

  lemma {:induction false} NestsSomehow(v: JsValue) returns (k: nat)
    ensures NestsWithin(v, k)
    decreases v, 1
  {
    match v
    case Arr(items) => k := NestSomehow(v, items, |items|);
    case Obj(ms, _) =>
      var values := seq(|ms|, i requires 0 <= i < |ms| => ms[i].value);
      k := NestSomehow(v, values, |values|);
      k := k + 1;
      forall i | 0 <= i < |ms| ensures NestsWithin(ms[i].value, k - 1) { assert values[i] in values; }
    case _ => k := 0;
  }

  lemma {:induction false} NestSomehow(v: JsValue, parts: seq<JsValue>, n: nat) returns (k: nat)
    requires n <= |parts| && ValuesBelow(v, parts)
    ensures forall i | 0 <= i < n :: NestsWithin(parts[i], k)
    decreases v, 0, n
  {
    if n == 0 {
      k := 0;
    } else {
      var rest := NestSomehow(v, parts, n - 1);
      assert parts[n - 1] in parts;
      var last := NestsSomehow(parts[n - 1]);
      k := if rest < last then last else rest;
      forall i | 0 <= i < n ensures NestsWithin(parts[i], k) {
        if i < n - 1 { DeepEnough(parts[i], rest, k); } else { DeepEnough(parts[i], last, k); }
      }
    }
  }

  lemma {:induction false} DeepEnough(v: JsValue, k: nat, l: nat)
    requires NestsWithin(v, k) && k <= l
    ensures NestsWithin(v, l)
    decreases l - k
  {
    if k < l {
      Deeper(v, k);
      DeepEnough(v, k + 1, l);
    }
  }

  // ---- exactly when the rewriting keeps every meaning

  /** A full expansion holds no reference, and a text in it was a text before. */
  lemma {:induction false} ExpandedIsFree(doc: Document, v: JsValue, fuel: nat)
    requires (forall m | m in doc :: m.value.Obj?) && Expand(doc, v, fuel).Some?
    ensures FreeOfReferences(doc, Expand(doc, v, fuel).value)
    ensures Expand(doc, v, fuel).value.Str? ==> v == Expand(doc, v, fuel).value
    ensures v.Obj? ==> Expand(doc, v, fuel).value.Obj?
    decreases fuel, v
  {
    var w := Expand(doc, v, fuel).value;
    if IsReference(doc, v) {
      NamedIsFound(doc, Target(v).value);
      ExpandedIsFree(doc, Lookup(doc, Target(v).value), fuel - 1);
    } else {
      match v
      case Arr(items) =>
        forall i | 0 <= i < |items| ensures FreeOfReferences(doc, w.items[i]) {
          var xs := seq(|items|, j requires 0 <= j < |items| => Expand(doc, items[j], fuel));
          assert xs[i] in xs && xs[i] == Expand(doc, items[i], fuel);
          ExpandedIsFree(doc, items[i], fuel);
        }
      case Obj(ms, _) =>
        forall i | 0 <= i < |ms|
          ensures w.members[i].key == ms[i].key && FreeOfReferences(doc, w.members[i].value)
          ensures w.members[i].value.Str? ==> w.members[i].value == ms[i].value
        {
          var xs := seq(|ms|, j requires 0 <= j < |ms| => Expand(doc, ms[j].value, fuel));
          assert xs[i] in xs && xs[i] == Expand(doc, ms[i].value, fuel);
          ExpandedIsFree(doc, ms[i].value, fuel);
        }
        if Target(w).Some? { assert Target(v) == Target(w); }
      case _ =>
    }
  }

  lemma {:induction false} NamedIsFound(doc: Document, name: Text)
    requires Named(doc, name)
    ensures exists m :: m in doc && m.value == Lookup(doc, name)
  {
    var m :| m in doc && m.key == name;
    if doc[0].key == name {
      assert doc[0] in doc;
    } else {
      assert m in doc[1..];
      NamedIsFound(doc[1..], name);
    }
  }

  lemma {:induction false} FreeUnderEither(doc: Document, v: JsValue)
    requires FreeOfReferences(Components(doc), v)
    ensures FreeOfReferences(doc, v)
    decreases v
  {
    if Target(v).Some? { SameNames(doc, Target(v).value); }
    match v
    case Arr(items) => forall x | x in items ensures FreeOfReferences(doc, x) { FreeUnderEither(doc, x); }
    case Obj(ms, _) =>
      MembersAreSmaller(v);
      forall m | m in ms ensures FreeOfReferences(doc, m.value) { FreeUnderEither(doc, m.value); }
    case _ =>
  }

  ghost predicate AllFree(doc: Document) { forall m | m in doc :: FreeOfReferences(doc, m.value) }

  ghost predicate ComesBack(doc: Document, i: nat)
    requires i < |doc|
  {
    exists k: nat :: Expand(Components(doc), Components(doc)[i].value, k) == Some(doc[i].value)
  }

  /** Every published component expands, without end or loss, to the schema it was made from. */
  ghost predicate KeepsMeaning(doc: Document) {
    forall i | 0 <= i < |doc| :: ComesBack(doc, i)
  }

  /** Free of references, a schema comes back with any fuel that covers its nesting. */
  lemma FreeComesBack(doc: Document, i: nat, fuel: nat)
    requires Published(doc) && AllFree(doc) && i < |doc| && NestsWithin(doc[i].value, fuel)
    ensures Expand(Components(doc), Components(doc)[i].value, fuel) == Some(doc[i].value)
  {
    assert doc[i] in doc;
    ExpandInvertsRewrite(doc, doc[i].value, doc[i].key, fuel);
  }

  lemma ComponentsAreObjects(doc: Document)
    requires Published(doc)
    ensures forall c | c in Components(doc) :: c.value.Obj?
  {
    var cs := Components(doc);
    forall c | c in cs ensures c.value.Obj? {
      var j :| 0 <= j < |cs| && cs[j] == c;
      assert doc[j] in doc;
    }
  }

  lemma WhatComesBackIsFree(doc: Document, i: nat, k: nat)
    requires Published(doc) && i < |doc|
    requires Expand(Components(doc), Components(doc)[i].value, k) == Some(doc[i].value)
    ensures FreeOfReferences(doc, doc[i].value)
  {
    ComponentsAreObjects(doc);
    ExpandedIsFree(Components(doc), Components(doc)[i].value, k);
    FreeUnderEither(doc, doc[i].value);
  }

  /** The rewriting keeps every meaning exactly when no schema was written with a reference to begin with. */
  lemma KeepsMeaningIffFree(doc: Document)
    requires Published(doc)
    ensures KeepsMeaning(doc) <==> AllFree(doc)
  {
    if AllFree(doc) {
      forall i | 0 <= i < |doc| ensures ComesBack(doc, i) {
        var k := NestsSomehow(doc[i].value);
        FreeComesBack(doc, i, k);
      }
    }
    if KeepsMeaning(doc) {
      forall m | m in doc ensures FreeOfReferences(doc, m.value) {
        var i :| 0 <= i < |doc| && doc[i] == m;
        assert ComesBack(doc, i);
        var k: nat :| Expand(Components(doc), Components(doc)[i].value, k) == Some(doc[i].value);
        WhatComesBackIsFree(doc, i, k);
      }
    }
  }

  // ---- nothing is left to factor out

  ghost predicate Inside(n: JsValue, v: JsValue)
    decreases v
  {
    || n == v
    || match v
       case Arr(items) => exists x :: x in items && Inside(n, x)
       case Obj(ms, _) => exists i :: 0 <= i < |ms| && Inside(n, ms[i].value)
       case _ => false
  }

  /** Each object of a rewritten tree that is not a reference comes from one the owner had to keep. */
  lemma {:induction false} KeptObject(doc: Document, v: JsValue, owner: Text, n: JsValue) returns (u: JsValue)
    requires Inside(n, Rewrite(doc, v, owner)) && n.Obj? && Target(n).None?
    ensures Inside(u, v) && n == Rewrite(doc, u, owner) && Referenced(doc, u, owner).None?
    decreases v
  {
    var w := Rewrite(doc, v, owner);
    u := v;
    if Referenced(doc, v, owner).Some? {
      RefTarget(Referenced(doc, v, owner).value);
      assert false;
    } else if n != w {
      match v
      case Arr(items) =>
        var i :| 0 <= i < |items| && Inside(n, w.items[i]);
        u := KeptObject(doc, items[i], owner, n);
        assert items[i] in items && Inside(u, items[i]);
      case Obj(ms, _) =>
        var i :| 0 <= i < |ms| && Inside(n, w.members[i].value);
        u := KeptObject(doc, ms[i].value, owner, n);
        assert Inside(u, ms[i].value);
    }
  }

  lemma {:induction false} InsideKeeps(doc: Document, u: JsValue, v: JsValue, fuel: nat)
    requires Inside(u, v) && Cloned(v) && FreeOfReferences(doc, v) && NestsWithin(v, fuel)
    ensures Cloned(u) && FreeOfReferences(doc, u) && NestsWithin(u, fuel)
    decreases v
  {
    if u != v {
      match v
      case Arr(items) =>
        var x :| x in items && Inside(u, x);
        InsideKeeps(doc, u, x, fuel);
      case Obj(ms, _) =>
        var i :| 0 <= i < |ms| && Inside(u, ms[i].value);
        assert ms[i] in ms;
        InsideKeeps(doc, u, ms[i].value, fuel - 1);
        Deeper(u, fuel - 1);
    }
  }

  /**
   No published component still spells out another named schema: each of its objects is a
   reference, or stands for a tree that only the component itself, or nothing, gives a name to.
   */
  lemma NoCopyRemains(doc: Document, i: nat, n: JsValue, fuel: nat)
    requires Published(doc) && AllFree(doc) && i < |doc| && NestsWithin(doc[i].value, fuel)
    requires Inside(n, Components(doc)[i].value) && n.Obj? && Target(n).None?
    ensures
      var tree := Expand(Components(doc), n, fuel);
      tree.Some? && Inside(tree.value, doc[i].value) && Referenced(doc, tree.value, doc[i].key).None?
  {
    assert doc[i] in doc;
    var u := KeptObject(doc, doc[i].value, doc[i].key, n);
    InsideKeeps(doc, u, doc[i].value, fuel);
    ExpandInvertsRewrite(doc, u, doc[i].key, fuel);
  }
}
