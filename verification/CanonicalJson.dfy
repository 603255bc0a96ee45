/**
 The canonical printer behind approval digests, a parser for its output, and the proof
 that the printer separates exactly the values that differ as JSON.
 */
module CanonicalJson {
  import opened Wrappers
  import opened JsonText
  import opened JsValues

  datatype PrintError = NonFiniteNumber | UndefinedMember | NotJson

  /** What a JSON value says, with objects read as maps. */
  datatype Meaning =
    | MNull
    | MBool(flag: bool)
    | MNum(token: NumberText)
    | MStr(text: Text)
    | MArr(items: seq<Meaning>)
    | MObj(members: map<Text, Meaning>)

  // ---- member order: code units compared from the left, a prefix before its extensions

  predicate Before(a: Text, b: Text) {
    if b == [] then false
    else if a == [] then true
    else a[0] < b[0] || (a[0] == b[0] && Before(a[1..], b[1..]))
  }

  lemma {:induction false} BeforeTotal(a: Text, b: Text)
    ensures a == b || Before(a, b) || Before(b, a)
    ensures !(Before(a, b) && Before(b, a)) && !Before(a, a)
  {
    if a != [] && b != [] {
      BeforeTotal(a[1..], b[1..]);
      assert a == [a[0]] + a[1..] && b == [b[0]] + b[1..];
    }
    if a != [] { BeforeTotal(a[1..], a[1..]); }
  }

  lemma {:induction false} BeforeTransitive(a: Text, b: Text, c: Text)
    requires Before(a, b) && Before(b, c)
    ensures Before(a, c)
  {
    if a != [] && a[0] == b[0] == c[0] { BeforeTransitive(a[1..], b[1..], c[1..]); }
  }

  predicate SortedKeys(ms: seq<Member>) {
    forall i, j | 0 <= i < j < |ms| :: Before(ms[i].key, ms[j].key)
  }

  function Insert(m: Member, ms: seq<Member>): seq<Member> {
    if ms == [] || Before(m.key, ms[0].key) then [m] + ms
    else [ms[0]] + Insert(m, ms[1..])
  }

  /** `Object.keys(record).sort()`, carrying each key's value along. */
  function Sort(ms: seq<Member>): seq<Member> {
    if ms == [] then [] else Insert(ms[0], Sort(ms[1..]))
  }

  lemma {:induction false} InsertKeepsMembers(m: Member, ms: seq<Member>)
    ensures multiset(Insert(m, ms)) == multiset([m]) + multiset(ms)
  {
    if ms == [] || Before(m.key, ms[0].key) {
    } else {
      InsertKeepsMembers(m, ms[1..]);
      assert ms == [ms[0]] + ms[1..];
    }
  }

  lemma {:induction false} SortKeepsMembers(ms: seq<Member>)
    ensures multiset(Sort(ms)) == multiset(ms)
    ensures |Sort(ms)| == |ms|
    ensures forall m :: m in Sort(ms) <==> m in ms
  {
    if ms != [] {
      SortKeepsMembers(ms[1..]);
      InsertKeepsMembers(ms[0], Sort(ms[1..]));
      assert ms == [ms[0]] + ms[1..];
      assert multiset(Sort(ms)) == multiset(ms);
    }
    assert |multiset(Sort(ms))| == |Sort(ms)| && |multiset(ms)| == |ms|;
    forall m ensures m in Sort(ms) <==> m in ms {
      assert m in Sort(ms) <==> m in multiset(Sort(ms));
    }
  }

  lemma {:induction false} InsertKeepsOrder(m: Member, ms: seq<Member>)
    requires SortedKeys(ms) && forall x | x in ms :: x.key != m.key
    ensures SortedKeys(Insert(m, ms))
  {
    if ms == [] {
    } else if Before(m.key, ms[0].key) {
      forall j | 0 < j < |ms| ensures Before(m.key, ms[j].key) { BeforeTransitive(m.key, ms[0].key, ms[j].key); }
    } else {
      InsertKeepsOrder(m, ms[1..]);
      InsertKeepsMembers(m, ms[1..]);
      BeforeTotal(m.key, ms[0].key);
      var r := Insert(m, ms[1..]);
      forall j | 0 <= j < |r| ensures Before(ms[0].key, r[j].key) {
        assert r[j] in multiset(r);
        assert r[j] == m || r[j] in multiset(ms[1..]);
        if r[j] != m {
          assert r[j] in ms[1..];
          var k :| 0 <= k < |ms[1..]| && ms[1..][k] == r[j];
          assert ms[k + 1] == r[j];
        }
      }
    }
  }

  lemma {:induction false} SortOrders(ms: seq<Member>)
    requires DistinctKeys(ms)
    ensures SortedKeys(Sort(ms))
  {
    if ms != [] {
      SortOrders(ms[1..]);
      SortKeepsMembers(ms[1..]);
      forall x | x in Sort(ms[1..]) ensures x.key != ms[0].key {
        assert x in ms[1..];
        var k :| 0 <= k < |ms[1..]| && ms[1..][k] == x;
        assert ms[k + 1] == x;
      }
      InsertKeepsOrder(ms[0], Sort(ms[1..]));
    }
  }

  // ---- the printer

  const COMMA: CodeUnit := 0x2C
  const COLON: CodeUnit := 0x3A
  const OPEN_ARRAY: CodeUnit := 0x5B
  const CLOSE_ARRAY: CodeUnit := 0x5D
  const OPEN_OBJECT: CodeUnit := 0x7B
  const CLOSE_OBJECT: CodeUnit := 0x7D
  const NULL_TEXT: Text := [0x6E, 0x75, 0x6C, 0x6C]
  const TRUE_TEXT: Text := [0x74, 0x72, 0x75, 0x65]
  const FALSE_TEXT: Text := [0x66, 0x61, 0x6C, 0x73, 0x65]

  /** `canonicalApprovalJson`. */
  function Print(v: JsValue): Result<Text, PrintError>
    decreases v, 2
  {
    MembersAreSmaller(v);
    match v
    case Null => Ok(NULL_TEXT)
    case Str(s) => Ok(Quote(s))
    case Bool(b) => Ok(if b then TRUE_TEXT else FALSE_TEXT)
    case NonFinite => Err(NonFiniteNumber)
    case Num(token) => Ok(token)
    case Arr(items) =>
      (match PrintItems(items)
       case Err(e) => Err(e)
       case Ok(t) => Ok([OPEN_ARRAY] + t + [CLOSE_ARRAY]))
    case Obj(ms, _) =>
      SortKeepsMembers(ms);
      (match PrintMembers(v, Sort(ms))
       case Err(e) => Err(e)
       case Ok(t) => Ok([OPEN_OBJECT] + t + [CLOSE_OBJECT]))
    case Undefined => Err(NotJson)
    case Foreign => Err(NotJson)
  }

  /** The items of an array, printed and joined by commas. */
  function PrintItems(items: seq<JsValue>): Result<Text, PrintError>
    decreases items, 1
  {
    if items == [] then Ok([]) else
    match Print(items[0])
    case Err(e) => Err(e)
    case Ok(first) =>
      if |items| == 1 then Ok(first) else
      match PrintItems(items[1..])
      case Err(e) => Err(e)
      case Ok(more) => Ok(first + [COMMA] + more)
  }

  /** Members of object `parent` in the given order, printed and joined by commas. */
  function PrintMembers(parent: JsValue, ms: seq<Member>): Result<Text, PrintError>
    requires MembersBelow(parent, ms)
    decreases parent, 1, |ms|
  {
    if ms == [] then Ok([])
    else if ms[0].value.Undefined? then Err(UndefinedMember)
    else
      match Print(ms[0].value)
      case Err(e) => Err(e)
      case Ok(value) =>
        var first := Quote(ms[0].key) + [COLON] + value;
        if |ms| == 1 then Ok(first) else
        match PrintMembers(parent, ms[1..])
        case Err(e) => Err(e)
        case Ok(more) => Ok(first + [COMMA] + more)
  }

  // ---- what a value means

  ghost function MeaningOf(v: JsValue): Meaning
    requires WellFormed(v) && IsJson(v)
    decreases v, 0
  {
    match v
    case Null => MNull
    case Str(s) => MStr(s)
    case Bool(b) => MBool(b)
    case Num(token) => MNum(token)
    case Arr(items) => MArr(seq(|items|, i requires 0 <= i < |items| => MeaningOf(items[i])))
    case Obj(ms, _) => MObj(MemberMap(ms))
  }

  ghost predicate SoundMembers(ms: seq<Member>) {
    DistinctKeys(ms) && forall m | m in ms :: WellFormed(m.value) && IsJson(m.value)
  }

  ghost function MemberMap(ms: seq<Member>): map<Text, Meaning>
    requires SoundMembers(ms)
    decreases ms, 1
  {
    if ms == [] then map[] else
    TailIsSound(ms);
    map[ms[0].key := MeaningOf(ms[0].value)] + MemberMap(ms[1..])
  }

  lemma TailIsSound(ms: seq<Member>)
    requires ms != [] && SoundMembers(ms)
    ensures SoundMembers(ms[1..])
  {
    forall i, j | 0 <= i < j < |ms[1..]| ensures ms[1..][i].key != ms[1..][j].key {
      assert ms[1..][i] == ms[i + 1] && ms[1..][j] == ms[j + 1];
    }
  }

  ghost predicate HasKey(ms: seq<Member>, k: Text) { exists i :: 0 <= i < |ms| && ms[i].key == k }

  lemma {:induction false} MemberMapLookup(ms: seq<Member>)
    requires SoundMembers(ms)
    ensures forall k :: k in MemberMap(ms) <==> HasKey(ms, k)
    ensures forall i | 0 <= i < |ms| :: ms[i].key in MemberMap(ms) && MemberMap(ms)[ms[i].key] == MeaningOf(ms[i].value)
  {
    if ms != [] {
      var tail := ms[1..];
      TailIsSound(ms);
      MemberMapLookup(tail);
      assert forall i | 1 <= i < |ms| :: ms[i] == tail[i - 1];
      forall k ensures k in MemberMap(ms) <==> HasKey(ms, k) {
        TailKeys(ms, k);
      }
      forall i | 0 <= i < |ms| ensures MemberMap(ms)[ms[i].key] == MeaningOf(ms[i].value) {
        TailKeys(ms, ms[0].key);
        if i > 0 { assert ms[i] == tail[i - 1] && tail[i - 1].key in MemberMap(tail); }
      }
    }
  }

  lemma TailKeys(ms: seq<Member>, k: Text)
    requires ms != [] && DistinctKeys(ms)
    ensures HasKey(ms[1..], k) <==> k != ms[0].key && HasKey(ms, k)
  {
    if HasKey(ms[1..], k) {
      var i :| 0 <= i < |ms[1..]| && ms[1..][i].key == k;
      assert ms[i + 1].key == k;
    }
    if k != ms[0].key && HasKey(ms, k) {
      var i :| 0 <= i < |ms| && ms[i].key == k;
      assert ms[1..][i - 1].key == k;
    }
  }

  lemma SortedAreDistinct(ms: seq<Member>)
    requires SortedKeys(ms)
    ensures DistinctKeys(ms)
  {
    forall i, j | 0 <= i < j < |ms| ensures ms[i].key != ms[j].key { BeforeTotal(ms[i].key, ms[j].key); }
  }

  lemma MappedAt(ms: seq<Member>, m: Member)
    requires SoundMembers(ms) && m in ms
    ensures m.key in MemberMap(ms) && MemberMap(ms)[m.key] == MeaningOf(m.value)
  {
    var i :| 0 <= i < |ms| && ms[i] == m;
    MemberMapLookup(ms);
  }

  lemma SameLookup(ms: seq<Member>, ns: seq<Member>, k: Text)
    requires SoundMembers(ms) && SoundMembers(ns) && HasKey(ms, k)
    requires forall m :: m in ms ==> m in ns
    ensures k in MemberMap(ms) && k in MemberMap(ns) && MemberMap(ms)[k] == MemberMap(ns)[k]
  {
    var i :| 0 <= i < |ms| && ms[i].key == k;
    var m := ms[i];
    assert m in ms && m in ns;
    MappedAt(ms, m);
    MappedAt(ns, m);
  }

  lemma MapHasKeys(ms: seq<Member>)
    requires SoundMembers(ms)
    ensures forall k :: k in MemberMap(ms) <==> HasKey(ms, k)
  {
    MemberMapLookup(ms);
  }

  lemma SameMembersSameMap(ms: seq<Member>, ns: seq<Member>)
    requires SoundMembers(ms) && SoundMembers(ns)
    requires forall m :: m in ms <==> m in ns
    ensures MemberMap(ms) == MemberMap(ns)
  {
    MapHasKeys(ms);
    MapHasKeys(ns);
    forall k | HasKey(ms, k) ensures k in MemberMap(ns) && MemberMap(ms)[k] == MemberMap(ns)[k] {
      SameLookup(ms, ns, k);
    }
    forall k | HasKey(ns, k) ensures k in MemberMap(ms) {
      SameLookup(ns, ms, k);
    }
  }

  lemma SortKeepsMap(ms: seq<Member>)
    requires SoundMembers(ms)
    ensures SoundMembers(Sort(ms)) && MemberMap(Sort(ms)) == MemberMap(ms)
  {
    SortKeepsMembers(ms);
    SortOrders(ms);
    SortedAreDistinct(Sort(ms));
    SameMembersSameMap(Sort(ms), ms);
  }

  // ---- a parser for JSON without white space

  function NumberRun(t: Text): nat {
    if t != [] && IsNumberUnit(t[0]) then 1 + NumberRun(t[1..]) else 0
  }

  function ParseValue(t: Text): (r: Option<(Meaning, Text)>)
    ensures r.Some? ==> |r.value.1| < |t|
    decreases |t|, 1
  {
    if t == [] then None
    else if t[0] == QUOTE then
      match ParseBody(t[1..])
      case None => None
      case Some((s, rest)) => Some((MStr(s), rest))
    else if t[0] == OPEN_ARRAY then
      if |t| > 1 && t[1] == CLOSE_ARRAY then Some((MArr([]), t[2..])) else
      match ParseItems(t[1..])
      case None => None
      case Some((items, rest)) => Some((MArr(items), rest))
    else if t[0] == OPEN_OBJECT then
      if |t| > 1 && t[1] == CLOSE_OBJECT then Some((MObj(map[]), t[2..])) else
      match ParseMembers(t[1..])
      case None => None
      case Some((members, rest)) => Some((MObj(members), rest))
    else if 0x30 <= t[0] <= 0x39 || t[0] == 0x2D then
      NumberRunIsNumbers(t);
      Some((MNum(t[..NumberRun(t)]), t[NumberRun(t)..]))
    else if NULL_TEXT <= t then Some((MNull, t[|NULL_TEXT|..]))
    else if TRUE_TEXT <= t then Some((MBool(true), t[|TRUE_TEXT|..]))
    else if FALSE_TEXT <= t then Some((MBool(false), t[|FALSE_TEXT|..]))
    else None
  }

  /** Items up to the closing bracket, at least one. */
  function ParseItems(t: Text): (r: Option<(seq<Meaning>, Text)>)
    ensures r.Some? ==> |r.value.1| < |t|
    decreases |t|, 2
  {
    match ParseValue(t)
    case None => None
    case Some((first, rest)) =>
      if rest == [] then None
      else if rest[0] == CLOSE_ARRAY then Some(([first], rest[1..]))
      else if rest[0] != COMMA then None
      else
        match ParseItems(rest[1..])
        case None => None
        case Some((more, after)) => Some(([first] + more, after))
  }

  /** Members up to the closing brace, at least one; a repeated name keeps its last value. */
  function ParseMembers(t: Text): (r: Option<(map<Text, Meaning>, Text)>)
    ensures r.Some? ==> |r.value.1| < |t|
    decreases |t|, 2
  {
    if t == [] || t[0] != QUOTE then None else
    match ParseBody(t[1..])
    case None => None
    case Some((key, afterKey)) =>
      if afterKey == [] || afterKey[0] != COLON then None else
      match ParseValue(afterKey[1..])
      case None => None
      case Some((value, rest)) =>
        if rest == [] then None
        else if rest[0] == CLOSE_OBJECT then Some((map[key := value], rest[1..]))
        else if rest[0] != COMMA then None
        else
          match ParseMembers(rest[1..])
          case None => None
          case Some((more, after)) => Some((map[key := value] + more, after))
  }

  lemma {:induction false} NumberRunIsNumbers(t: Text)
    ensures NumberRun(t) <= |t|
    ensures forall i | 0 <= i < NumberRun(t) :: IsNumberUnit(t[i])
  {
    if t != [] && IsNumberUnit(t[0]) {
      NumberRunIsNumbers(t[1..]);
      assert forall i | 1 <= i < NumberRun(t) :: t[i] == t[1..][i - 1];
    }
  }

  lemma {:induction false} NumberRunStops(token: Text, rest: Text)
    requires forall u | u in token :: IsNumberUnit(u)
    requires rest == [] || !IsNumberUnit(rest[0])
    ensures NumberRun(token + rest) == |token|
  {
    if token == [] {
      assert token + rest == rest;
    } else {
      assert (token + rest)[1..] == token[1..] + rest;
      NumberRunStops(token[1..], rest);
    }
  }

  function ParseJson(t: Text): Option<Meaning> {
    match ParseValue(t)
    case Some((m, rest)) => if rest == [] then Some(m) else None
    case None => None
  }

  // ---- printing then parsing

  predicate Delimited(rest: Text) { rest == [] || !IsNumberUnit(rest[0]) }

  /** Printing succeeds exactly on JSON values. */
  lemma {:induction false} PrintsIffJson(v: JsValue)
    ensures Print(v).Ok? <==> IsJson(v)
    decreases v, 2
  {
    match v
    case Arr(items) => ItemsPrintIffJson(items);
    case Obj(ms, _) =>
      SortKeepsMembers(ms);
      MembersAreSmaller(v);
      MembersPrintIffJson(v, Sort(ms));
    case _ =>
  }

  lemma {:induction false} ItemsPrintIffJson(items: seq<JsValue>)
    ensures PrintItems(items).Ok? <==> forall x | x in items :: IsJson(x)
    decreases items, 1
  {
    if items != [] {
      PrintsIffJson(items[0]);
      ItemsPrintIffJson(items[1..]);
      assert items == [items[0]] + items[1..];
    }
  }

  lemma {:induction false} MembersPrintIffJson(parent: JsValue, ms: seq<Member>)
    requires MembersBelow(parent, ms)
    ensures PrintMembers(parent, ms).Ok? <==> forall m | m in ms :: IsJson(m.value)
    decreases parent, 1, |ms|
  {
    if ms != [] {
      PrintsIffJson(ms[0].value);
      MembersPrintIffJson(parent, ms[1..]);
      assert ms == [ms[0]] + ms[1..];
    }
  }

  lemma PrintStarts(v: JsValue)
    requires Print(v).Ok?
    ensures Print(v).value != [] && Print(v).value[0] != CLOSE_ARRAY
  {}

  lemma ParseWord(word: Text, m: Meaning, rest: Text)
    requires
      || (word == NULL_TEXT && m == MNull)
      || (word == TRUE_TEXT && m == MBool(true))
      || (word == FALSE_TEXT && m == MBool(false))
    ensures ParseValue(word + rest) == Some((m, rest))
  {
    assert (word + rest)[|word|..] == rest;
  }

  lemma ParseNumber(token: NumberText, rest: Text)
    requires Delimited(rest)
    ensures ParseValue(token + rest) == Some((MNum(token), rest))
  {
    NumberRunStops(token, rest);
    var t := token + rest;
    assert t[..|token|] == token && t[|token|..] == rest;
    assert t[0] == token[0];
    ParseNumberAt(t, token, rest);
  }

  lemma ParseNumberAt(t: Text, token: NumberText, rest: Text)
    requires t != [] && (0x30 <= t[0] <= 0x39 || t[0] == 0x2D)
    requires NumberRun(t) == |token| <= |t| && t[..|token|] == token && t[|token|..] == rest
    ensures ParseValue(t) == Some((MNum(token), rest))
  {}

  lemma ParseString(s: Text, rest: Text)
    ensures ParseValue(Quote(s) + rest) == Some((MStr(s), rest))
  {
    assert (Quote(s) + rest)[1..] == EscapeAll(s) + [QUOTE] + rest;
    ParseBodyInvertsEscape(s, rest);
  }

  lemma ParseArray(t: Text, items: seq<Meaning>, rest: Text)
    requires t != [] && t[0] != CLOSE_ARRAY && ParseItems(t) == Some((items, rest))
    ensures ParseValue([OPEN_ARRAY] + t) == Some((MArr(items), rest))
  {
    assert ([OPEN_ARRAY] + t)[1..] == t;
  }

  lemma ParseObject(t: Text, members: map<Text, Meaning>, rest: Text)
    requires t != [] && t[0] != CLOSE_OBJECT && ParseMembers(t) == Some((members, rest))
    ensures ParseValue([OPEN_OBJECT] + t) == Some((MObj(members), rest))
  {
    assert ([OPEN_OBJECT] + t)[1..] == t;
  }

  lemma ParseEmpty(rest: Text)
    ensures ParseValue([OPEN_ARRAY, CLOSE_ARRAY] + rest) == Some((MArr([]), rest))
    ensures ParseValue([OPEN_OBJECT, CLOSE_OBJECT] + rest) == Some((MObj(map[]), rest))
  {
    assert ([OPEN_ARRAY, CLOSE_ARRAY] + rest)[2..] == rest;
    assert ([OPEN_OBJECT, CLOSE_OBJECT] + rest)[2..] == rest;
  }

  lemma ParseLastItem(first: Text, m: Meaning, rest: Text)
    requires ParseValue(first + ([CLOSE_ARRAY] + rest)) == Some((m, [CLOSE_ARRAY] + rest))
    ensures ParseItems(first + [CLOSE_ARRAY] + rest) == Some(([m], rest))
  {
    Regroup(first, [CLOSE_ARRAY], rest);
    assert ([CLOSE_ARRAY] + rest)[1..] == rest;
  }

  lemma ParseNextItem(first: Text, m: Meaning, tail: Text, ms: seq<Meaning>, rest: Text)
    requires ParseItems(tail + [CLOSE_ARRAY] + rest) == Some((ms, rest))
    requires ParseValue(first + ([COMMA] + (tail + [CLOSE_ARRAY] + rest))) == Some((m, [COMMA] + (tail + [CLOSE_ARRAY] + rest)))
    ensures ParseItems(first + [COMMA] + tail + [CLOSE_ARRAY] + rest) == Some(([m] + ms, rest))
  {
    var more := tail + [CLOSE_ARRAY] + rest;
    Regroup(first + [COMMA], tail, [CLOSE_ARRAY]);
    Regroup(first + [COMMA], tail + [CLOSE_ARRAY], rest);
    Regroup(first, [COMMA], more);
    assert ([COMMA] + more)[1..] == more;
  }

  lemma ReadKey(key: Text, value: Text, rest: Text)
    ensures var t := Quote(key) + [COLON] + value + rest;
      t[0] == QUOTE && ParseBody(t[1..]) == Some((key, [COLON] + (value + rest)))
  {
    var t := Quote(key) + [COLON] + value + rest;
    ParseBodyInvertsEscape(key, [COLON] + (value + rest));
    assert t[1..] == EscapeAll(key) + [QUOTE] + ([COLON] + (value + rest));
  }

  lemma ReadMember(t: Text, key: Text, afterKey: Text, m: Meaning, next: CodeUnit, after: Text)
    requires t != [] && t[0] == QUOTE && ParseBody(t[1..]) == Some((key, [COLON] + afterKey))
    requires ParseValue(afterKey) == Some((m, [next] + after))
    ensures next == CLOSE_OBJECT ==> ParseMembers(t) == Some((map[key := m], after))
    ensures next == COMMA && ParseMembers(after).Some? ==>
      ParseMembers(t) == Some((map[key := m] + ParseMembers(after).value.0, ParseMembers(after).value.1))
  {
    assert ([COLON] + afterKey)[1..] == afterKey;
    assert ([next] + after)[1..] == after;
  }

  /** A printed value, followed by anything that cannot extend a number, reads back as what it means. */
  lemma {:induction false} ValueRoundTrip(v: JsValue, rest: Text)
    requires WellFormed(v) && IsJson(v) && Delimited(rest)
    ensures Print(v).Ok?
    ensures ParseValue(Print(v).value + rest) == Some((MeaningOf(v), rest))
    decreases v, 2
  {
    PrintsIffJson(v);
    match v
    case Null => ParseWord(NULL_TEXT, MNull, rest);
    case Bool(b) => ParseWord(if b then TRUE_TEXT else FALSE_TEXT, MBool(b), rest);
    case Num(token) => ParseNumber(token, rest);
    case Str(s) => ParseString(s, rest);
    case Arr(items) => ArrayRoundTrip(v, rest);
    case Obj(ms, _) => ObjectRoundTrip(v, rest);
    case _ =>
  }

  lemma {:induction false} ArrayRoundTrip(v: JsValue, rest: Text)
    requires v.Arr? && WellFormed(v) && IsJson(v) && Print(v).Ok?
    ensures ParseValue(Print(v).value + rest) == Some((MeaningOf(v), rest))
    decreases v, 1
  {
    var t := Print(v).value + rest;
    if v.items == [] {
      assert t == [OPEN_ARRAY, CLOSE_ARRAY] + rest;
      ParseEmpty(rest);
      assert MeaningOf(v).items == [];
    } else {
      ItemsRoundTrip(v.items, rest);
      PrintStarts(v.items[0]);
      var body := PrintItems(v.items).value + [CLOSE_ARRAY] + rest;
      assert t == [OPEN_ARRAY] + body;
      ParseArray(body, ItemMeanings(v.items), rest);
      assert MeaningOf(v).items == ItemMeanings(v.items);
    }
  }

  lemma {:induction false} ObjectRoundTrip(v: JsValue, rest: Text)
    requires v.Obj? && WellFormed(v) && IsJson(v) && Print(v).Ok?
    ensures ParseValue(Print(v).value + rest) == Some((MeaningOf(v), rest))
    decreases v, 1
  {
    var sorted := Sort(v.members);
    SortKeepsMembers(v.members);
    SortKeepsMap(v.members);
    MembersAreSmaller(v);
    PrintObject(v);
    if v.members == [] {
      ParseEmpty(rest);
      assert [OPEN_OBJECT] + [] + [CLOSE_OBJECT] == [OPEN_OBJECT, CLOSE_OBJECT];
    } else {
      MembersRoundTrip(v, sorted, rest);
      ParseObjectText(PrintMembers(v, sorted).value, MemberMap(sorted), rest);
    }
  }

  lemma ParseObjectText(inner: Text, members: map<Text, Meaning>, rest: Text)
    requires inner != [] && inner[0] == QUOTE && ParseMembers(inner + [CLOSE_OBJECT] + rest) == Some((members, rest))
    ensures ParseValue([OPEN_OBJECT] + inner + [CLOSE_OBJECT] + rest) == Some((MObj(members), rest))
  {
    ParseObject(inner + [CLOSE_OBJECT] + rest, members, rest);
    assert [OPEN_OBJECT] + inner + [CLOSE_OBJECT] + rest == [OPEN_OBJECT] + (inner + [CLOSE_OBJECT] + rest);
  }

  lemma PrintObject(v: JsValue)
    requires v.Obj? && Print(v).Ok?
    requires MembersBelow(v, Sort(v.members))
    ensures PrintMembers(v, Sort(v.members)).Ok?
    ensures Print(v).value == [OPEN_OBJECT] + PrintMembers(v, Sort(v.members)).value + [CLOSE_OBJECT]
  {}

  ghost function ItemMeanings(items: seq<JsValue>): seq<Meaning>
    requires forall x | x in items :: WellFormed(x) && IsJson(x)
  {
    seq(|items|, i requires 0 <= i < |items| => MeaningOf(items[i]))
  }

  lemma {:induction false} ItemsRoundTrip(items: seq<JsValue>, rest: Text)
    requires items != [] && forall x | x in items :: WellFormed(x) && IsJson(x)
    ensures PrintItems(items).Ok? && Print(items[0]).Ok?
    ensures Print(items[0]).value <= PrintItems(items).value
    ensures ParseItems(PrintItems(items).value + [CLOSE_ARRAY] + rest) == Some((ItemMeanings(items), rest))
    decreases items, 1
  {
    ItemsPrintIffJson(items);
    PrintsIffJson(items[0]);
    var first, m := Print(items[0]).value, MeaningOf(items[0]);
    if |items| == 1 {
      ValueRoundTrip(items[0], [CLOSE_ARRAY] + rest);
      ParseLastItem(first, m, rest);
      assert ItemMeanings(items) == [m];
    } else {
      ItemsRoundTrip(items[1..], rest);
      var tail := PrintItems(items[1..]).value;
      ValueRoundTrip(items[0], [COMMA] + (tail + [CLOSE_ARRAY] + rest));
      ParseNextItem(first, m, tail, ItemMeanings(items[1..]), rest);
      assert ItemMeanings(items) == [m] + ItemMeanings(items[1..]);
    }
  }

  lemma {:induction false} MembersRoundTrip(parent: JsValue, ms: seq<Member>, rest: Text)
    requires ms != [] && SoundMembers(ms)
    requires MembersBelow(parent, ms)
    ensures PrintMembers(parent, ms).Ok?
    ensures PrintMembers(parent, ms).value != [] && PrintMembers(parent, ms).value[0] == QUOTE
    ensures ParseMembers(PrintMembers(parent, ms).value + [CLOSE_OBJECT] + rest) == Some((MemberMap(ms), rest))
    decreases parent, 0, |ms|
  {
    MembersPrintIffJson(parent, ms);
    PrintsIffJson(ms[0].value);
    TailIsSound(ms);
    var key, value, m := ms[0].key, Print(ms[0].value).value, MeaningOf(ms[0].value);
    PrintMember(parent, ms);
    if |ms| == 1 {
      ValueRoundTrip(ms[0].value, [CLOSE_OBJECT] + rest);
      ParseLastMember(key, value, m, rest);
      assert ms[1..] == [] && MemberMap(ms) == map[key := m];
    } else {
      MembersRoundTrip(parent, ms[1..], rest);
      var tail := PrintMembers(parent, ms[1..]).value;
      ValueRoundTrip(ms[0].value, [COMMA] + (tail + [CLOSE_OBJECT] + rest));
      ParseNextMember(key, value, m, tail, MemberMap(ms[1..]), rest);
    }
  }

  lemma ParseLastMember(key: Text, value: Text, m: Meaning, rest: Text)
    requires ParseValue(value + ([CLOSE_OBJECT] + rest)) == Some((m, [CLOSE_OBJECT] + rest))
    ensures ParseMembers(Quote(key) + [COLON] + value + [CLOSE_OBJECT] + rest) == Some((map[key := m], rest))
  {
    var after := [CLOSE_OBJECT] + rest;
    ReadKey(key, value, after);
    ReadMember(Quote(key) + [COLON] + value + after, key, value + after, m, CLOSE_OBJECT, rest);
    Regroup(Quote(key) + [COLON] + value, [CLOSE_OBJECT], rest);
  }

  lemma ParseNextMember(key: Text, value: Text, m: Meaning, tail: Text, others: map<Text, Meaning>, rest: Text)
    requires ParseMembers(tail + [CLOSE_OBJECT] + rest) == Some((others, rest))
    requires ParseValue(value + ([COMMA] + (tail + [CLOSE_OBJECT] + rest))) == Some((m, [COMMA] + (tail + [CLOSE_OBJECT] + rest)))
    ensures ParseMembers(Quote(key) + [COLON] + value + [COMMA] + tail + [CLOSE_OBJECT] + rest)
         == Some((map[key := m] + others, rest))
  {
    var first := Quote(key) + [COLON] + value;
    var after := [COMMA] + (tail + [CLOSE_OBJECT] + rest);
    ReadKey(key, value, after);
    ReadMember(first + after, key, value + after, m, COMMA, tail + [CLOSE_OBJECT] + rest);
    Regroup(first + [COMMA], tail, [CLOSE_OBJECT]);
    Regroup(first + [COMMA], tail + [CLOSE_OBJECT], rest);
    Regroup(first, [COMMA], tail + [CLOSE_OBJECT] + rest);
  }

  lemma PrintMember(parent: JsValue, ms: seq<Member>)
    requires ms != [] && MembersBelow(parent, ms)
    requires PrintMembers(parent, ms).Ok?
    ensures Print(ms[0].value).Ok?
    ensures var first := Quote(ms[0].key) + [COLON] + Print(ms[0].value).value;
      && (|ms| == 1 ==> PrintMembers(parent, ms).value == first)
      && (|ms| > 1 ==> (PrintMembers(parent, ms[1..]).Ok?
          && PrintMembers(parent, ms).value == first + [COMMA] + PrintMembers(parent, ms[1..]).value))
    ensures PrintMembers(parent, ms).value != [] && PrintMembers(parent, ms).value[0] == QUOTE
  {}

  /** A canonical text reads back as exactly the value that was printed. */
  lemma CanonicalTextParsesBack(v: JsValue)
    requires WellFormed(v) && Print(v).Ok?
    ensures IsJson(v) && ParseJson(Print(v).value) == Some(MeaningOf(v))
  {
    PrintsIffJson(v);
    ValueRoundTrip(v, []);
    assert Print(v).value + [] == Print(v).value;
  }

  // ---- the printer depends on the meaning only

  lemma {:induction false} SortedKeysAgree(ms: seq<Member>, ns: seq<Member>)
    requires SortedKeys(ms) && SortedKeys(ns)
    requires forall k :: HasKey(ms, k) <==> HasKey(ns, k)
    ensures |ms| == |ns| && forall i | 0 <= i < |ms| :: ms[i].key == ns[i].key
  {
    if ms == [] || ns == [] {
      if ms != [] { assert HasKey(ms, ms[0].key); }
      if ns != [] { assert HasKey(ns, ns[0].key); }
    } else {
      SameHead(ms, ns);
      SortedAreDistinct(ms);
      SortedAreDistinct(ns);
      forall k ensures HasKey(ms[1..], k) <==> HasKey(ns[1..], k) {
        TailKeys(ms, k);
        TailKeys(ns, k);
      }
      SortedKeysAgree(ms[1..], ns[1..]);
      forall i | 0 < i < |ms| ensures ms[i].key == ns[i].key {
        assert ms[i] == ms[1..][i - 1] && ns[i] == ns[1..][i - 1];
      }
    }
  }

  lemma SameHead(ms: seq<Member>, ns: seq<Member>)
    requires ms != [] && ns != [] && SortedKeys(ms) && SortedKeys(ns)
    requires forall k :: HasKey(ms, k) <==> HasKey(ns, k)
    ensures ms[0].key == ns[0].key
  {
    assert HasKey(ms, ms[0].key) && HasKey(ns, ns[0].key);
    var i :| 0 <= i < |ns| && ns[i].key == ms[0].key;
    var j :| 0 <= j < |ms| && ms[j].key == ns[0].key;
    BeforeTotal(ms[0].key, ns[0].key);
  }

  lemma {:induction false} SameMeaningPrintsAlike(v: JsValue, w: JsValue)
    requires WellFormed(v) && IsJson(v) && WellFormed(w) && IsJson(w)
    requires MeaningOf(v) == MeaningOf(w)
    ensures Print(v) == Print(w)
    decreases v, 2
  {
    match v
    case Arr(items) =>
      assert MeaningOf(v).items == ItemMeanings(items) && MeaningOf(w).items == ItemMeanings(w.items);
      SameItemsPrintAlike(items, w.items);
    case Obj(ms, _) =>
      var ns := w.members;
      assert SoundMembers(ms) && SoundMembers(ns);
      assert MeaningOf(v).members == MemberMap(ms) && MeaningOf(w).members == MemberMap(ns);
      SortKeepsMap(ms); SortKeepsMap(ns);
      SortKeepsMembers(ms); SortKeepsMembers(ns);
      SortOrders(ms); SortOrders(ns);
      MembersAreSmaller(v); MembersAreSmaller(w);
      SameMapSameKeys(Sort(ms), Sort(ns));
      SameMembersPrintAlike(v, w, Sort(ms), Sort(ns));
    case _ =>
  }

  lemma SameMapSameKeys(ms: seq<Member>, ns: seq<Member>)
    requires SoundMembers(ms) && SoundMembers(ns) && SortedKeys(ms) && SortedKeys(ns)
    requires MemberMap(ms) == MemberMap(ns)
    ensures |ms| == |ns|
    ensures forall i | 0 <= i < |ms| :: ms[i].key == ns[i].key && MeaningOf(ms[i].value) == MeaningOf(ns[i].value)
  {
    MemberMapLookup(ms);
    MemberMapLookup(ns);
    forall k ensures HasKey(ms, k) <==> HasKey(ns, k) {
      assert k in MemberMap(ms) <==> k in MemberMap(ns);
    }
    SortedKeysAgree(ms, ns);
  }

  lemma {:induction false} SameItemsPrintAlike(xs: seq<JsValue>, ys: seq<JsValue>)
    requires forall x | x in xs :: WellFormed(x) && IsJson(x)
    requires forall y | y in ys :: WellFormed(y) && IsJson(y)
    requires ItemMeanings(xs) == ItemMeanings(ys)
    ensures PrintItems(xs) == PrintItems(ys)
    decreases xs, 1
  {
    assert |xs| == |ItemMeanings(xs)| == |ItemMeanings(ys)| == |ys|;
    if xs != [] {
      assert ItemMeanings(xs)[0] == ItemMeanings(ys)[0];
      SameMeaningPrintsAlike(xs[0], ys[0]);
      assert ItemMeanings(xs[1..]) == ItemMeanings(xs)[1..];
      assert ItemMeanings(ys[1..]) == ItemMeanings(ys)[1..];
      SameItemsPrintAlike(xs[1..], ys[1..]);
    }
  }

  lemma {:induction false} SameMembersPrintAlike(v: JsValue, w: JsValue, ms: seq<Member>, ns: seq<Member>)
    requires MembersBelow(v, ms)
    requires MembersBelow(w, ns)
    requires forall m | m in ms :: WellFormed(m.value) && IsJson(m.value)
    requires forall n | n in ns :: WellFormed(n.value) && IsJson(n.value)
    requires |ms| == |ns|
    requires forall i | 0 <= i < |ms| :: ms[i].key == ns[i].key && MeaningOf(ms[i].value) == MeaningOf(ns[i].value)
    ensures PrintMembers(v, ms) == PrintMembers(w, ns)
    decreases v, 1, |ms|
  {
    if ms != [] {
      SameMeaningPrintsAlike(ms[0].value, ns[0].value);
      SameMembersPrintAlike(v, w, ms[1..], ns[1..]);
    }
  }

  /** Two JSON values print alike exactly when they mean the same, whatever their member order. */
  lemma PrintsAlikeIffSameMeaning(v: JsValue, w: JsValue)
    requires WellFormed(v) && IsJson(v) && WellFormed(w) && IsJson(w)
    ensures Print(v).Ok? && Print(w).Ok?
    ensures Print(v).value == Print(w).value <==> MeaningOf(v) == MeaningOf(w)
  {
    PrintsIffJson(v);
    PrintsIffJson(w);
    CanonicalTextParsesBack(v);
    CanonicalTextParsesBack(w);
    if MeaningOf(v) == MeaningOf(w) { SameMeaningPrintsAlike(v, w); }
  }
}
