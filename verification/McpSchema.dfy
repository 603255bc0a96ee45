/**
 The structural check an MCP tool's input schema must pass: two work-list loops, proved
 to accept exactly the trees that satisfy a recursive specification.
 */
module McpSchema {
  import opened JsonText
  import opened JsValues

  const MAX_NODES := 4096
  const MAX_DEPTH := 64
  const MAX_STRING_BYTES := 65536
  const MAX_ITEMS := 1024
  const MAX_MEMBERS := 256
  const MAX_KEYS := 8192
  const MAX_KEY_BYTES := 1024
  const MAX_SCHEMA_DEPTH := 32

  datatype Work = Work(value: JsValue, depth: nat)

  // ---- first pass: size, depth and width

  function Nodes(v: JsValue): (n: nat)
    ensures n >= 1
    decreases v, 0
  {
    match v
    case Arr(items) => 1 + ItemNodes(items)
    case Obj(ms, plain) => if plain then 1 + MemberNodes(ms) else 1
    case _ => 1
  }

  function ItemNodes(items: seq<JsValue>): nat
    decreases items, 1
  {
    if items == [] then 0 else Nodes(items[0]) + ItemNodes(items[1..])
  }

  function MemberNodes(ms: seq<Member>): nat
    decreases ms, 1
  {
    if ms == [] then 0 else Nodes(ms[0].value) + MemberNodes(ms[1..])
  }

  function Keys(v: JsValue): nat
    decreases v, 0
  {
    match v
    case Arr(items) => ItemKeys(items)
    case Obj(ms, plain) => if plain then |ms| + MemberKeys(ms) else 0
    case _ => 0
  }

  function ItemKeys(items: seq<JsValue>): nat
    decreases items, 1
  {
    if items == [] then 0 else Keys(items[0]) + ItemKeys(items[1..])
  }

  function MemberKeys(ms: seq<Member>): nat
    decreases ms, 1
  {
    if ms == [] then 0 else Keys(ms[0].value) + MemberKeys(ms[1..])
  }

  /** What one value contributes by itself: no long string, wide array or object, long key or odd prototype. */
  predicate FitsItself(v: JsValue) {
    match v
    case Str(s) => Utf8Length(s) <= MAX_STRING_BYTES
    case Arr(items) => |items| <= MAX_ITEMS
    case Obj(ms, plain) => plain && |ms| <= MAX_MEMBERS && forall m | m in ms :: Utf8Length(m.key) <= MAX_KEY_BYTES
    case _ => true
  }

  /** Every value below `v` fits, and none lies deeper than the limit when `v` is at `depth`. */
  predicate Fits(v: JsValue, depth: nat) {
    depth <= MAX_DEPTH && FitsItself(v) &&
    match v
    case Arr(items) => forall x | x in items :: Fits(x, depth + 1)
    case Obj(ms, _) => forall m | m in ms :: Fits(m.value, depth + 1)
    case _ => true
  }

  predicate WithinBounds(root: JsValue) {
    Nodes(root) <= MAX_NODES && Keys(root) <= MAX_KEYS && Fits(root, 0)
  }

  function WorkNodes(work: seq<Work>): nat {
    if work == [] then 0 else Nodes(work[0].value) + WorkNodes(work[1..])
  }

  function WorkKeys(work: seq<Work>): nat {
    if work == [] then 0 else Keys(work[0].value) + WorkKeys(work[1..])
  }

  predicate AllFit(work: seq<Work>) { forall w | w in work :: Fits(w.value, w.depth) }

  lemma {:induction false} WorkAppend(work: seq<Work>, more: seq<Work>)
    ensures WorkNodes(work + more) == WorkNodes(work) + WorkNodes(more)
    ensures WorkKeys(work + more) == WorkKeys(work) + WorkKeys(more)
  {
    if work == [] {
      assert work + more == more;
    } else {
      WorkAppend(work[1..], more);
      assert (work + more)[1..] == work[1..] + more;
    }
  }

  function ItemWork(items: seq<JsValue>, depth: nat): seq<Work> {
    if items == [] then [] else [Work(items[0], depth)] + ItemWork(items[1..], depth)
  }

  function MemberWork(ms: seq<Member>, depth: nat): seq<Work> {
    if ms == [] then [] else [Work(ms[0].value, depth)] + MemberWork(ms[1..], depth)
  }

  lemma ConsFit(w: Work, rest: seq<Work>)
    ensures AllFit([w] + rest) <==> Fits(w.value, w.depth) && AllFit(rest)
  {
    assert forall x :: x in [w] + rest <==> x == w || x in rest;
  }

  lemma {:induction false} ItemWorkSums(items: seq<JsValue>, depth: nat)
    ensures WorkNodes(ItemWork(items, depth)) == ItemNodes(items)
    ensures WorkKeys(ItemWork(items, depth)) == ItemKeys(items)
    ensures AllFit(ItemWork(items, depth)) <==> forall x | x in items :: Fits(x, depth)
  {
    if items != [] {
      ItemWorkSums(items[1..], depth);
      ConsFit(Work(items[0], depth), ItemWork(items[1..], depth));
      assert forall x :: x in items <==> x == items[0] || x in items[1..] by { assert items == [items[0]] + items[1..]; }
    }
  }

  lemma {:induction false} MemberWorkSums(ms: seq<Member>, depth: nat)
    ensures WorkNodes(MemberWork(ms, depth)) == MemberNodes(ms)
    ensures WorkKeys(MemberWork(ms, depth)) == MemberKeys(ms)
    ensures AllFit(MemberWork(ms, depth)) <==> forall m | m in ms :: Fits(m.value, depth)
  {
    if ms != [] {
      MemberWorkSums(ms[1..], depth);
      ConsFit(Work(ms[0].value, depth), MemberWork(ms[1..], depth));
      assert forall m :: m in ms <==> m == ms[0] || m in ms[1..] by { assert ms == [ms[0]] + ms[1..]; }
    }
  }

  /** What is left of the work when the piece at `i` has been taken. */
  function Rest(work: seq<Work>, i: nat): seq<Work>
    requires i < |work|
  {
    work[..i] + work[i + 1..]
  }

  lemma WorkCons(w: Work, after: seq<Work>)
    ensures WorkNodes([w] + after) == Nodes(w.value) + WorkNodes(after)
    ensures WorkKeys([w] + after) == Keys(w.value) + WorkKeys(after)
  {
    assert ([w] + after)[1..] == after;
  }

  lemma MiddleSums(before: seq<Work>, w: Work, after: seq<Work>)
    ensures WorkNodes(before + ([w] + after)) == WorkNodes(before + after) + Nodes(w.value)
    ensures WorkKeys(before + ([w] + after)) == WorkKeys(before + after) + Keys(w.value)
  {
    WorkAppend(before, [w] + after);
    WorkAppend(before, after);
    WorkCons(w, after);
  }

  lemma MiddleFits(before: seq<Work>, w: Work, after: seq<Work>)
    ensures AllFit(before + ([w] + after)) <==> AllFit(before + after) && Fits(w.value, w.depth)
  {
    Push(before, [w] + after);
    Push(before, after);
    ConsFit(w, after);
  }

  lemma Around(work: seq<Work>, i: nat)
    requires i < |work|
    ensures work == work[..i] + ([work[i]] + work[i + 1..])
  {}

  /** Taking a piece of work changes every sum by that piece's share. */
  lemma Pop(work: seq<Work>, i: nat)
    requires i < |work|
    ensures var w, rest := work[i], Rest(work, i);
      && WorkNodes(work) == WorkNodes(rest) + Nodes(w.value)
      && WorkKeys(work) == WorkKeys(rest) + Keys(w.value)
      && (AllFit(work) <==> AllFit(rest) && Fits(w.value, w.depth))
  {
    Around(work, i);
    MiddleSums(work[..i], work[i], work[i + 1..]);
    MiddleFits(work[..i], work[i], work[i + 1..]);
  }

  lemma Push(work: seq<Work>, more: seq<Work>)
    ensures AllFit(work + more) <==> AllFit(work) && AllFit(more)
  {
    assert forall w :: w in work + more <==> w in work || w in more;
  }

  /** The work that visiting one fitting value adds accounts for exactly what is below it. */
  function Below(w: Work): seq<Work> {
    match w.value
    case Arr(items) => ItemWork(items, w.depth + 1)
    case Obj(ms, _) => MemberWork(ms, w.depth + 1)
    case _ => []
  }

  lemma BelowSums(w: Work)
    requires w.depth <= MAX_DEPTH && FitsItself(w.value)
    ensures WorkNodes(Below(w)) + 1 == Nodes(w.value)
    ensures WorkKeys(Below(w)) + OwnKeys(w.value) == Keys(w.value)
    ensures AllFit(Below(w)) <==> Fits(w.value, w.depth)
  {
    match w.value
    case Arr(items) => ItemWorkSums(items, w.depth + 1);
    case Obj(ms, _) => MemberWorkSums(ms, w.depth + 1);
    case _ =>
  }

  method PushItems(work: seq<Work>, items: seq<JsValue>, depth: nat) returns (r: seq<Work>)
    ensures r == work + ItemWork(items, depth)
  {
    r := work;
    for i := 0 to |items|
      invariant r + ItemWork(items[i..], depth) == work + ItemWork(items, depth)
    {
      assert items[i..][1..] == items[i + 1..];
      r := r + [Work(items[i], depth)];
    }
  }

  method PushMembers(work: seq<Work>, ms: seq<Member>, depth: nat) returns (ok: bool, r: seq<Work>)
    ensures ok <==> forall m | m in ms :: Utf8Length(m.key) <= MAX_KEY_BYTES
    ensures ok ==> r == work + MemberWork(ms, depth)
  {
    r := work;
    for i := 0 to |ms|
      invariant r + MemberWork(ms[i..], depth) == work + MemberWork(ms, depth)
      invariant forall j | 0 <= j < i :: Utf8Length(ms[j].key) <= MAX_KEY_BYTES
    {
      assert ms[i..][1..] == ms[i + 1..];
      if Utf8Length(ms[i].key) > MAX_KEY_BYTES { return false, r; }
      r := r + [Work(ms[i].value, depth)];
    }
    ok := true;
  }

  function OwnKeys(v: JsValue): nat { if v.Obj? && v.plain then |v.members| else 0 }

  /** One round of the first loop on the value just popped. */
  method Visit(rest: seq<Work>, w: Work, keysBefore: nat) returns (ok: bool, values: seq<Work>, keys: nat)
    requires keysBefore <= MAX_KEYS
    ensures ok <==> w.depth <= MAX_DEPTH && FitsItself(w.value) && keysBefore + OwnKeys(w.value) <= MAX_KEYS
    ensures ok ==> values == rest + Below(w) && keys == keysBefore + OwnKeys(w.value)
  {
    values, keys, ok := rest, keysBefore, false;
    if w.depth > MAX_DEPTH { return; }
    if w.value.Str? && Utf8Length(w.value.text) > MAX_STRING_BYTES { return; }
    if w.value.Arr? {
      if |w.value.items| > MAX_ITEMS { return; }
      values := PushItems(values, w.value.items, w.depth + 1);
    } else if w.value.Obj? {
      if !w.value.plain { return; }
      keys := keys + |w.value.members|;
      if |w.value.members| > MAX_MEMBERS || keys > MAX_KEYS { return; }
      var short;
      short, values := PushMembers(values, w.value.members, w.depth + 1);
      if !short { return; }
    }
    ok := true;
  }

  /** What is left to visit and what has been counted make up the whole tree. */
  ghost predicate Accounts(root: JsValue, values: seq<Work>, visits: nat, keys: nat) {
    && visits + WorkNodes(values) == Nodes(root)
    && keys + WorkKeys(values) == Keys(root)
    && (AllFit(values) <==> Fits(root, 0))
  }

  lemma AcceptedVisit(root: JsValue, values: seq<Work>, i: nat, visits: nat, keys: nat)
    requires i < |values| && Accounts(root, values, visits, keys)
    requires values[i].depth <= MAX_DEPTH && FitsItself(values[i].value)
    ensures var w, rest := values[i], Rest(values, i);
      && Accounts(root, rest + Below(w), visits + 1, keys + OwnKeys(w.value))
      && WorkNodes(rest + Below(w)) < WorkNodes(values)
  {
    var w, rest := values[i], Rest(values, i);
    Pop(values, i);
    BelowSums(w);
    WorkAppend(rest, Below(w));
    Push(rest, Below(w));
  }

  /** One more value may be counted, and it passes. */
  predicate Passes(w: Work, visits: nat, keys: nat) {
    visits + 1 <= MAX_NODES && w.depth <= MAX_DEPTH && FitsItself(w.value) && keys + OwnKeys(w.value) <= MAX_KEYS
  }

  lemma RefusedVisit(root: JsValue, values: seq<Work>, i: nat, visits: nat, keys: nat)
    requires i < |values| && Accounts(root, values, visits, keys)
    requires !Passes(values[i], visits, keys)
    ensures !WithinBounds(root)
  {
    Pop(values, i);
    assert OwnKeys(values[i].value) <= Keys(values[i].value);
  }

  /** The first loop: accepts exactly the trees within bounds, after at most 4097 visits. */
  method CheckBounds(root: JsValue) returns (ok: bool, visits: nat)
    ensures ok <==> WithinBounds(root)
    ensures visits <= MAX_NODES + 1
    ensures ok ==> visits == Nodes(root)
  {
    var values := [Work(root, 0)];
    visits := 0;
    var keys: nat := 0;
    while values != []
      invariant visits <= MAX_NODES && keys <= MAX_KEYS
      invariant Accounts(root, values, visits, keys)
      decreases WorkNodes(values)
    {
      var last := |values| - 1;
      assert Rest(values, last) == values[..last];
      var more, newKeys: nat;
      ok, more, newKeys := Visit(values[..last], values[last], keys);
      if visits + 1 > MAX_NODES || !ok {
        RefusedVisit(root, values, last, visits, keys);
        return false, visits + 1;
      }
      AcceptedVisit(root, values, last, visits, keys);
      values, visits, keys := more, visits + 1, newKeys;
    }
    ok := true;
  }

  /** Which piece of work is taken next; the loops take the last. */
  type Pick = seq<Work> -> nat

  function Taken(work: seq<Work>, pick: Pick): (i: nat)
    requires work != []
    ensures i < |work|
  {
    pick(work) % |work|
  }

  /** How far the first loop has come. */
  datatype Scan = Scan(values: seq<Work>, visits: nat, keys: nat)

  function Visited(s: Scan, i: nat): Scan
    requires i < |s.values|
  {
    Scan(Rest(s.values, i) + Below(s.values[i]), s.visits + 1, s.keys + OwnKeys(s.values[i].value))
  }

  /** The first loop, whichever value it takes next. */
  predicate AcceptsBounds(s: Scan, pick: Pick)
    decreases MAX_NODES - s.visits
  {
    s.values == [] ||
    var i := Taken(s.values, pick);
    Passes(s.values[i], s.visits, s.keys) && AcceptsBounds(Visited(s, i), pick)
  }

  ghost predicate ScanInv(root: JsValue, s: Scan) {
    s.visits <= MAX_NODES && s.keys <= MAX_KEYS && Accounts(root, s.values, s.visits, s.keys)
  }

  lemma VisitKeepsInv(root: JsValue, s: Scan, i: nat)
    requires ScanInv(root, s) && i < |s.values| && Passes(s.values[i], s.visits, s.keys)
    ensures ScanInv(root, Visited(s, i))
  {
    AcceptedVisit(root, s.values, i, s.visits, s.keys);
  }

  lemma {:induction false} AnyOrderFrom(root: JsValue, s: Scan, pick: Pick)
    requires ScanInv(root, s)
    ensures AcceptsBounds(s, pick) <==> WithinBounds(root)
    decreases MAX_NODES - s.visits
  {
    if s.values != [] {
      var i := Taken(s.values, pick);
      if Passes(s.values[i], s.visits, s.keys) {
        VisitKeepsInv(root, s, i);
        AnyOrderFrom(root, Visited(s, i), pick);
      } else {
        RefusedVisit(root, s.values, i, s.visits, s.keys);
      }
    }
  }

  /** In whatever order the values are taken, exactly the trees within bounds pass. */
  lemma BoundsInAnyOrder(root: JsValue, pick: Pick)
    ensures AcceptsBounds(Scan([Work(root, 0)], 0, 0), pick) <==> WithinBounds(root)
  {
    AnyOrderFrom(root, Scan([Work(root, 0)], 0, 0), pick);
  }

  // ---- second pass: JSON Schema positions

  function Ascii(s: string): Text {
    seq(|s|, i requires 0 <= i < |s| => if (s[i] as int) < 0x80 then s[i] as int else 0x3F)
  }

  const TYPE_KEYWORD: Text := Ascii("type")
  const REF_KEYWORD: Text := Ascii("$ref")
  const REQUIRED_KEYWORD: Text := Ascii("required")
  const ENUM_KEYWORD: Text := Ascii("enum")
  const ALLOWED_TYPES: seq<Text> :=
    [Ascii("null"), Ascii("boolean"), Ascii("object"), Ascii("array"), Ascii("number"), Ascii("integer"), Ascii("string")]
  const SINGLE_KEYWORDS: seq<Text> :=
    [Ascii("additionalProperties"), Ascii("unevaluatedProperties"), Ascii("items"), Ascii("contains"),
     Ascii("propertyNames"), Ascii("not"), Ascii("if"), Ascii("then"), Ascii("else"),
     Ascii("unevaluatedItems"), Ascii("contentSchema")]
  const ARRAY_KEYWORDS: seq<Text> := [Ascii("allOf"), Ascii("anyOf"), Ascii("oneOf"), Ascii("prefixItems")]
  const MAP_KEYWORDS: seq<Text> :=
    [Ascii("properties"), Ascii("patternProperties"), Ascii("dependentSchemas"), Ascii("$defs"), Ascii("definitions")]

  predicate DistinctStrings(xs: seq<JsValue>) {
    (forall x | x in xs :: x.Str?) && forall i, j | 0 <= i < j < |xs| :: xs[i] != xs[j]
  }

  /** The keywords whose own value has a required shape. */
  predicate KeywordsOk(ms: seq<Member>) {
    && TypeOk(Lookup(ms, TYPE_KEYWORD))
    && RefOk(Lookup(ms, REF_KEYWORD))
    && RequiredOk(Lookup(ms, REQUIRED_KEYWORD))
    && EnumOk(Lookup(ms, ENUM_KEYWORD))
  }

  predicate TypeOk(types: JsValue) {
    || types.Undefined?
    || (types.Str? && types.text in ALLOWED_TYPES)
    || (&& types.Arr? && 0 < |types.items| <= |ALLOWED_TYPES| && DistinctStrings(types.items)
        && forall t | t in types.items :: t.text in ALLOWED_TYPES)
  }

  predicate RefOk(ref: JsValue) { ref.Undefined? || (ref.Str? && 0 < |ref.text| <= 4096 && ref.text[0] == 0x23) }

  predicate RequiredOk(required: JsValue) {
    required.Undefined? || (required.Arr? && |required.items| <= 256 && DistinctStrings(required.items))
  }

  predicate EnumOk(options: JsValue) { options.Undefined? || (options.Arr? && 0 < |options.items| <= 1024) }

  predicate ArrayOk(v: JsValue) { v.Undefined? || (v.Arr? && 0 < |v.items| <= 256) }

  predicate MapOk(v: JsValue) { v.Undefined? || v.Obj? }

  /** Every array or map keyword present holds a container of the right kind. */
  predicate ContainersOk(ms: seq<Member>) {
    (forall k | k in ARRAY_KEYWORDS :: ArrayOk(Lookup(ms, k))) && (forall k | k in MAP_KEYWORDS :: MapOk(Lookup(ms, k)))
  }

  function Values(ms: seq<Member>): seq<JsValue> {
    if ms == [] then [] else [ms[0].value] + Values(ms[1..])
  }

  function SingleChildren(ms: seq<Member>, keywords: seq<Text>): seq<JsValue> {
    if keywords == [] then [] else
    var v := Lookup(ms, keywords[0]);
    (if v.Undefined? then [] else [v]) + SingleChildren(ms, keywords[1..])
  }

  function ArrayChildren(ms: seq<Member>, keywords: seq<Text>): seq<JsValue> {
    if keywords == [] then [] else
    var v := Lookup(ms, keywords[0]);
    (if v.Arr? then v.items else []) + ArrayChildren(ms, keywords[1..])
  }

  function MapChildren(ms: seq<Member>, keywords: seq<Text>): seq<JsValue> {
    if keywords == [] then [] else
    var v := Lookup(ms, keywords[0]);
    (if v.Obj? then Values(v.members) else []) + MapChildren(ms, keywords[1..])
  }

  /** Every value of an object that stands in a schema position. */
  function Children(ms: seq<Member>): seq<JsValue> {
    SingleChildren(ms, SINGLE_KEYWORDS) + ArrayChildren(ms, ARRAY_KEYWORDS) + MapChildren(ms, MAP_KEYWORDS)
  }

  lemma {:induction false} LookupIsSmaller(v: JsValue, ms: seq<Member>, key: Text)
    requires MembersBelow(v, ms)
    ensures Lookup(ms, key).Undefined? || IsBelow(Lookup(ms, key), v)
  {
    if ms != [] && ms[0].key != key { LookupIsSmaller(v, ms[1..], key); }
  }

  lemma {:induction false} ValuesAreMembers(ms: seq<Member>)
    ensures forall x | x in Values(ms) :: exists m :: m in ms && m.value == x
  {
    if ms != [] {
      ValuesAreMembers(ms[1..]);
      forall x | x in Values(ms) ensures exists m :: m in ms && m.value == x {
        if x == ms[0].value { assert ms[0] in ms; } else { assert x in Values(ms[1..]); }
      }
    }
  }

  lemma ChildrenAreSmaller(v: JsValue)
    requires v.Obj?
    ensures ValuesBelow(v, Children(v.members))
  {
    MembersAreSmaller(v);
    SinglesAreSmaller(v, SINGLE_KEYWORDS);
    ArraysAreSmaller(v, ARRAY_KEYWORDS);
    MapsAreSmaller(v, MAP_KEYWORDS);
  }

  lemma {:induction false} SinglesAreSmaller(v: JsValue, keywords: seq<Text>)
    requires v.Obj? && MembersBelow(v, v.members)
    ensures ValuesBelow(v, SingleChildren(v.members, keywords))
  {
    if keywords != [] {
      LookupIsSmaller(v, v.members, keywords[0]);
      SinglesAreSmaller(v, keywords[1..]);
    }
  }

  lemma {:induction false} ArraysAreSmaller(v: JsValue, keywords: seq<Text>)
    requires v.Obj? && MembersBelow(v, v.members)
    ensures ValuesBelow(v, ArrayChildren(v.members, keywords))
  {
    if keywords != [] {
      LookupIsSmaller(v, v.members, keywords[0]);
      ArraysAreSmaller(v, keywords[1..]);
    }
  }

  lemma {:induction false} MapsAreSmaller(v: JsValue, keywords: seq<Text>)
    requires v.Obj? && MembersBelow(v, v.members)
    ensures ValuesBelow(v, MapChildren(v.members, keywords))
  {
    if keywords != [] {
      var found := Lookup(v.members, keywords[0]);
      LookupIsSmaller(v, v.members, keywords[0]);
      if found.Obj? {
        MembersAreSmaller(found);
        ValuesAreMembers(found.members);
      }
      MapsAreSmaller(v, keywords[1..]);
    }
  }

  predicate SchemaItself(v: JsValue) {
    v.Bool? || (v.Obj? && KeywordsOk(v.members) && ContainersOk(v.members))
  }

  /** A value that may stand in a schema position at the given depth, all the way down. */
  predicate SchemaOk(v: JsValue, depth: nat)
    decreases v
  {
    depth <= MAX_SCHEMA_DEPTH && SchemaItself(v) &&
    (v.Obj? ==> (ChildrenAreSmaller(v); forall c | c in Children(v.members) :: SchemaOk(c, depth + 1)))
  }

  /** How many values the second loop visits below and including `v`. */
  ghost function Visits(v: JsValue): (n: nat)
    ensures n > 0
    decreases v, 1
  {
    if v.Obj? then
      ChildrenAreSmaller(v);
      1 + TotalVisits(v, Children(v.members))
    else 1
  }

  ghost function TotalVisits(parent: JsValue, cs: seq<JsValue>): nat
    requires ValuesBelow(parent, cs)
    decreases parent, 0, |cs|
  {
    if cs == [] then 0 else
    assert cs[0] in cs && forall c | c in cs[1..] :: c in cs;
    Visits(cs[0]) + TotalVisits(parent, cs[1..])
  }

  ghost function WorkVisits(work: seq<Work>): nat {
    if work == [] then 0 else Visits(work[0].value) + WorkVisits(work[1..])
  }

  predicate AllSchemas(work: seq<Work>) { forall w | w in work :: SchemaOk(w.value, w.depth) }

  lemma {:induction false} VisitsAppend(work: seq<Work>, more: seq<Work>)
    ensures WorkVisits(work + more) == WorkVisits(work) + WorkVisits(more)
  {
    if work == [] {
      assert work + more == more;
    } else {
      VisitsAppend(work[1..], more);
      assert (work + more)[1..] == work[1..] + more;
    }
  }

  lemma ConsSchemas(w: Work, rest: seq<Work>)
    ensures AllSchemas([w] + rest) <==> SchemaOk(w.value, w.depth) && AllSchemas(rest)
  {
    assert forall x :: x in [w] + rest <==> x == w || x in rest;
  }

  lemma ConsChildren(cs: seq<JsValue>)
    requires cs != []
    ensures cs[0] in cs
    ensures forall c :: c in cs <==> c == cs[0] || c in cs[1..]
  {
    assert cs == [cs[0]] + cs[1..];
  }

  lemma {:induction false} ItemWorkVisits(parent: JsValue, cs: seq<JsValue>, depth: nat)
    requires ValuesBelow(parent, cs)
    ensures WorkVisits(ItemWork(cs, depth)) == TotalVisits(parent, cs)
  {
    if cs != [] {
      ConsChildren(cs);
      ItemWorkVisits(parent, cs[1..], depth);
    }
  }

  lemma {:induction false} ItemWorkSchemas(cs: seq<JsValue>, depth: nat)
    ensures AllSchemas(ItemWork(cs, depth)) <==> forall c | c in cs :: SchemaOk(c, depth)
  {
    if cs != [] {
      ConsChildren(cs);
      ItemWorkSchemas(cs[1..], depth);
      ConsSchemas(Work(cs[0], depth), ItemWork(cs[1..], depth));
    }
  }

  lemma {:induction false} ItemWorkAppend(xs: seq<JsValue>, ys: seq<JsValue>, depth: nat)
    ensures ItemWork(xs + ys, depth) == ItemWork(xs, depth) + ItemWork(ys, depth)
  {
    if xs == [] {
      assert xs + ys == ys;
    } else {
      ItemWorkAppend(xs[1..], ys, depth);
      assert (xs + ys)[1..] == xs[1..] + ys;
    }
  }

  method PushValues(work: seq<Work>, ms: seq<Member>, depth: nat) returns (r: seq<Work>)
    ensures r == work + ItemWork(Values(ms), depth)
  {
    r := work;
    for i := 0 to |ms|
      invariant r + ItemWork(Values(ms[i..]), depth) == work + ItemWork(Values(ms), depth)
    {
      assert ms[i..][1..] == ms[i + 1..];
      assert Values(ms[i..]) == [ms[i].value] + Values(ms[i + 1..]);
      r := r + [Work(ms[i].value, depth)];
    }
  }

  method PushSingles(work: seq<Work>, ms: seq<Member>, ks: seq<Text>, depth: nat) returns (r: seq<Work>)
    ensures r == work + ItemWork(SingleChildren(ms, ks), depth)
  {
    r := work;
    for i := 0 to |ks|
      invariant r + ItemWork(SingleChildren(ms, ks[i..]), depth) == work + ItemWork(SingleChildren(ms, ks), depth)
    {
      assert ks[i..][1..] == ks[i + 1..];
      var child := Lookup(ms, ks[i]);
      if !child.Undefined? {
        assert SingleChildren(ms, ks[i..]) == [child] + SingleChildren(ms, ks[i + 1..]);
        r := r + [Work(child, depth)];
      } else {
        assert SingleChildren(ms, ks[i..]) == SingleChildren(ms, ks[i + 1..]);
      }
    }
  }

  lemma RegroupWork(a: seq<Work>, b: seq<Work>, c: seq<Work>)
    ensures a + b + c == a + (b + c)
  {}

  lemma ArrayChildrenStep(ms: seq<Member>, ks: seq<Text>, i: nat, depth: nat)
    requires i < |ks|
    ensures var found := Lookup(ms, ks[i]);
      ItemWork(ArrayChildren(ms, ks[i..]), depth)
      == (if found.Arr? then ItemWork(found.items, depth) else []) + ItemWork(ArrayChildren(ms, ks[i + 1..]), depth)
  {
    assert ks[i..][1..] == ks[i + 1..];
    var found := Lookup(ms, ks[i]);
    var more := ArrayChildren(ms, ks[i + 1..]);
    if found.Arr? {
      ItemWorkAppend(found.items, more, depth);
    } else {
      assert [] + more == more;
    }
  }

  method PushArrays(work: seq<Work>, ms: seq<Member>, ks: seq<Text>, depth: nat) returns (ok: bool, r: seq<Work>)
    ensures ok <==> forall k | k in ks :: ArrayOk(Lookup(ms, k))
    ensures ok ==> r == work + ItemWork(ArrayChildren(ms, ks), depth)
  {
    r := work;
    for i := 0 to |ks|
      invariant forall j | 0 <= j < i :: ArrayOk(Lookup(ms, ks[j]))
      invariant r + ItemWork(ArrayChildren(ms, ks[i..]), depth) == work + ItemWork(ArrayChildren(ms, ks), depth)
    {
      ArrayChildrenStep(ms, ks, i, depth);
      var children := Lookup(ms, ks[i]);
      if !children.Undefined? {
        if !children.Arr? || |children.items| == 0 || |children.items| > 256 {
          assert ks[i] in ks;
          return false, r;
        }
        RegroupWork(r, ItemWork(children.items, depth), ItemWork(ArrayChildren(ms, ks[i + 1..]), depth));
        r := PushItems(r, children.items, depth);
      }
    }
    ok := true;
  }

  lemma MapChildrenStep(ms: seq<Member>, ks: seq<Text>, i: nat, depth: nat)
    requires i < |ks|
    ensures var found := Lookup(ms, ks[i]);
      ItemWork(MapChildren(ms, ks[i..]), depth)
      == (if found.Obj? then ItemWork(Values(found.members), depth) else []) + ItemWork(MapChildren(ms, ks[i + 1..]), depth)
  {
    assert ks[i..][1..] == ks[i + 1..];
    var found := Lookup(ms, ks[i]);
    var more := MapChildren(ms, ks[i + 1..]);
    if found.Obj? {
      ItemWorkAppend(Values(found.members), more, depth);
    } else {
      assert [] + more == more;
    }
  }

  method PushMaps(work: seq<Work>, ms: seq<Member>, ks: seq<Text>, depth: nat) returns (ok: bool, r: seq<Work>)
    ensures ok <==> forall k | k in ks :: MapOk(Lookup(ms, k))
    ensures ok ==> r == work + ItemWork(MapChildren(ms, ks), depth)
  {
    r := work;
    for i := 0 to |ks|
      invariant forall j | 0 <= j < i :: MapOk(Lookup(ms, ks[j]))
      invariant r + ItemWork(MapChildren(ms, ks[i..]), depth) == work + ItemWork(MapChildren(ms, ks), depth)
    {
      MapChildrenStep(ms, ks, i, depth);
      var children := Lookup(ms, ks[i]);
      if !children.Undefined? {
        if !children.Obj? {
          assert ks[i] in ks;
          return false, r;
        }
        RegroupWork(r, ItemWork(Values(children.members), depth), ItemWork(MapChildren(ms, ks[i + 1..]), depth));
        r := PushValues(r, children.members, depth);
      }
    }
    ok := true;
  }

  /** The work that visiting one schema adds. */
  function BelowSchema(w: Work): seq<Work> {
    if w.value.Obj? then ItemWork(Children(w.value.members), w.depth + 1) else []
  }

  lemma ChildWork(rest: seq<Work>, ms: seq<Member>, depth: nat)
    ensures rest + ItemWork(Children(ms), depth) ==
      rest + ItemWork(SingleChildren(ms, SINGLE_KEYWORDS), depth) + ItemWork(ArrayChildren(ms, ARRAY_KEYWORDS), depth)
           + ItemWork(MapChildren(ms, MAP_KEYWORDS), depth)
  {
    var a, b, c := SingleChildren(ms, SINGLE_KEYWORDS), ArrayChildren(ms, ARRAY_KEYWORDS), MapChildren(ms, MAP_KEYWORDS);
    ItemWorkAppend(a, b, depth);
    ItemWorkAppend(a + b, c, depth);
  }

  /** Every value in a schema position of an object, unless a keyword holds the wrong kind of container. */
  method PushChildren(rest: seq<Work>, ms: seq<Member>, depth: nat) returns (ok: bool, schemas: seq<Work>)
    ensures ok <==> ContainersOk(ms)
    ensures ok ==> schemas == rest + ItemWork(Children(ms), depth)
  {
    schemas := PushSingles(rest, ms, SINGLE_KEYWORDS, depth);
    ok, schemas := PushArrays(schemas, ms, ARRAY_KEYWORDS, depth);
    if !ok { return; }
    ok, schemas := PushMaps(schemas, ms, MAP_KEYWORDS, depth);
    ChildWork(rest, ms, depth);
  }

  /** One round of the second loop on the value just popped. */
  method VisitSchema(rest: seq<Work>, w: Work) returns (ok: bool, schemas: seq<Work>)
    ensures ok <==> w.depth <= MAX_SCHEMA_DEPTH && SchemaItself(w.value)
    ensures ok ==> schemas == rest + BelowSchema(w)
  {
    ok, schemas := false, rest;
    if w.depth > MAX_SCHEMA_DEPTH { return; }
    if w.value.Bool? { return true, rest; }
    if !w.value.Obj? { return; }
    if !KeywordsOk(w.value.members) { return; }
    ok, schemas := PushChildren(rest, w.value.members, w.depth + 1);
  }

  lemma BelowVisits(w: Work)
    ensures WorkVisits(BelowSchema(w)) + 1 == Visits(w.value)
  {
    if w.value.Obj? {
      ChildrenAreSmaller(w.value);
      ItemWorkVisits(w.value, Children(w.value.members), w.depth + 1);
    }
  }

  /** Whether every child of a schema is a schema, one level deeper. */
  predicate ChildrenOk(cs: seq<JsValue>, depth: nat) { forall c | c in cs :: SchemaOk(c, depth) }

  lemma SchemaUnfolds(v: JsValue, depth: nat)
    ensures SchemaOk(v, depth) <==>
      depth <= MAX_SCHEMA_DEPTH && SchemaItself(v) && (v.Obj? ==> ChildrenOk(Children(v.members), depth + 1))
  {}

  lemma BelowAreChildren(w: Work)
    ensures AllSchemas(BelowSchema(w)) <==> (w.value.Obj? ==> ChildrenOk(Children(w.value.members), w.depth + 1))
  {
    if w.value.Obj? { ItemWorkSchemas(Children(w.value.members), w.depth + 1); }
  }

  lemma BelowAreSchemas(w: Work)
    ensures SchemaOk(w.value, w.depth) <==>
      w.depth <= MAX_SCHEMA_DEPTH && SchemaItself(w.value) && AllSchemas(BelowSchema(w))
  {
    SchemaUnfolds(w.value, w.depth);
    BelowAreChildren(w);
  }

  lemma SplitSchemas(rest: seq<Work>, more: seq<Work>)
    ensures AllSchemas(rest + more) <==> AllSchemas(rest) && AllSchemas(more)
  {
    assert forall x :: x in rest + more <==> x in rest || x in more;
  }

  lemma SchemaStep(schemas: seq<Work>, i: nat)
    requires i < |schemas|
    ensures
      var w, rest := schemas[i], Rest(schemas, i);
      && WorkVisits(schemas) == WorkVisits(rest + BelowSchema(w)) + 1
      && (AllSchemas(schemas) <==>
            w.depth <= MAX_SCHEMA_DEPTH && SchemaItself(w.value) && AllSchemas(rest + BelowSchema(w)))
  {
    var w, rest := schemas[i], Rest(schemas, i);
    PopSchema(schemas, i);
    VisitsAppend(rest, BelowSchema(w));
    SplitSchemas(rest, BelowSchema(w));
    BelowVisits(w);
    BelowAreSchemas(w);
  }

  lemma MiddleVisits(before: seq<Work>, w: Work, after: seq<Work>)
    ensures WorkVisits(before + ([w] + after)) == WorkVisits(before + after) + Visits(w.value)
  {
    VisitsAppend(before, [w] + after);
    VisitsAppend(before, after);
    assert ([w] + after)[1..] == after;
  }

  lemma MiddleSchemas(before: seq<Work>, w: Work, after: seq<Work>)
    ensures AllSchemas(before + ([w] + after)) <==> AllSchemas(before + after) && SchemaOk(w.value, w.depth)
  {
    SplitSchemas(before, [w] + after);
    SplitSchemas(before, after);
    ConsSchemas(w, after);
  }

  lemma PopSchema(schemas: seq<Work>, i: nat)
    requires i < |schemas|
    ensures
      var w, rest := schemas[i], Rest(schemas, i);
      && WorkVisits(schemas) == WorkVisits(rest) + Visits(w.value)
      && (AllSchemas(schemas) <==> SchemaOk(w.value, w.depth) && AllSchemas(rest))
  {
    Around(schemas, i);
    MiddleVisits(schemas[..i], schemas[i], schemas[i + 1..]);
    MiddleSchemas(schemas[..i], schemas[i], schemas[i + 1..]);
  }

  /** The second loop: accepts exactly the values that are schemas all the way down. */
  method CheckSchemas(root: JsValue) returns (ok: bool)
    ensures ok <==> SchemaOk(root, 0)
  {
    var schemas := [Work(root, 0)];
    while schemas != []
      invariant AllSchemas(schemas) <==> SchemaOk(root, 0)
      decreases WorkVisits(schemas)
    {
      var last := |schemas| - 1;
      assert Rest(schemas, last) == schemas[..last];
      SchemaStep(schemas, last);
      ok, schemas := VisitSchema(schemas[..last], schemas[last]);
      if !ok { return; }
    }
    ok := true;
  }

  /** The second loop, whichever value it takes next. */
  ghost predicate AcceptsSchemas(schemas: seq<Work>, pick: Pick)
    decreases WorkVisits(schemas)
  {
    schemas == [] ||
    var i := Taken(schemas, pick);
    var w := schemas[i];
    SchemaStep(schemas, i);
    w.depth <= MAX_SCHEMA_DEPTH && SchemaItself(w.value) && AcceptsSchemas(Rest(schemas, i) + BelowSchema(w), pick)
  }

  lemma {:induction false} SchemasInAnyOrder(schemas: seq<Work>, pick: Pick)
    ensures AcceptsSchemas(schemas, pick) <==> AllSchemas(schemas)
    decreases WorkVisits(schemas)
  {
    if schemas != [] {
      var i := Taken(schemas, pick);
      SchemaStep(schemas, i);
      SchemasInAnyOrder(Rest(schemas, i) + BelowSchema(schemas[i]), pick);
    }
  }

  /** In whatever order either pass takes its values, the passes accept the same trees. */
  lemma OrderDoesNotMatter(root: JsValue, pick: Pick, pickSchema: Pick)
    ensures
      AcceptsBounds(Scan([Work(root, 0)], 0, 0), pick) && AcceptsSchemas([Work(root, 0)], pickSchema)
      <==> WithinBounds(root) && SchemaOk(root, 0)
  {
    BoundsInAnyOrder(root, pick);
    SchemasInAnyOrder([Work(root, 0)], pickSchema);
  }

  /** `validateMcpJsonSchemaStructure`: refuses before the second loop when the first refuses. */
  method ValidateStructure(root: JsValue) returns (ok: bool)
    requires root.Obj?
    ensures ok <==> WithinBounds(root) && SchemaOk(root, 0)
  {
    var visits;
    ok, visits := CheckBounds(root);
    if ok { ok := CheckSchemas(root); }
  }
}
