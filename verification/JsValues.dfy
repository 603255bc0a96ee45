/** JavaScript values as the validators and printers of the repository see them. */
module JsValues {
  import opened Wrappers
  import opened JsonText

  predicate IsNumberUnit(u: CodeUnit) {
    0x30 <= u <= 0x39 || u == 0x2B || u == 0x2D || u == 0x2E || u == 0x45 || u == 0x65
  }

  /** What `JSON.stringify` prints for a finite number. A number is identified with this text. */
  type NumberText = t: Text |
    |t| > 0 && (0x30 <= t[0] <= 0x39 || t[0] == 0x2D) && forall u | u in t :: IsNumberUnit(u)
    witness [0x30]

  /**
   A JavaScript value. An object lists its own enumerable members in insertion order and
   says whether its prototype is the plain one; `Foreign` stands for functions, symbols
   and big integers.
   */
  datatype JsValue =
    | Null
    | Undefined
    | Bool(flag: bool)
    | Num(token: NumberText)
    | NonFinite
    | Str(text: Text)
    | Arr(items: seq<JsValue>)
    | Obj(members: seq<Member>, plain: bool)
    | Foreign

  datatype Member = Member(key: Text, value: JsValue)

  predicate DistinctKeys(ms: seq<Member>) {
    forall i, j | 0 <= i < j < |ms| :: ms[i].key != ms[j].key
  }

  /** No object has two members of the same name; true of every JavaScript value. */
  ghost predicate WellFormed(v: JsValue) {
    match v
    case Arr(items) => forall x | x in items :: WellFormed(x)
    case Obj(ms, _) => DistinctKeys(ms) && forall m | m in ms :: WellFormed(m.value)
    case _ => true
  }

  /** Only JSON all the way down. */
  ghost predicate IsJson(v: JsValue) {
    match v
    case Arr(items) => forall x | x in items :: IsJson(x)
    case Obj(ms, _) => forall m | m in ms :: IsJson(m.value)
    case _ => !v.Undefined? && !v.NonFinite? && !v.Foreign?
  }

  /** `c` lies below `v` in the structure of values. */
  ghost predicate IsBelow(c: JsValue, v: JsValue) { v decreases to c }

  ghost predicate MembersBelow(v: JsValue, ms: seq<Member>) { forall m | m in ms :: IsBelow(m.value, v) }

  ghost predicate ValuesBelow(v: JsValue, cs: seq<JsValue>) { forall c | c in cs :: IsBelow(c, v) }

  lemma MembersAreSmaller(v: JsValue)
    ensures v.Obj? ==> MembersBelow(v, v.members)
  {
    if v.Obj? {
      forall m | m in v.members ensures IsBelow(m.value, v) {
        var k :| 0 <= k < |v.members| && v.members[k] == m;
      }
    }
  }

  /** Reading a member of an object; absent members read as undefined. */
  function Lookup(ms: seq<Member>, key: Text): JsValue {
    if ms == [] then Undefined else if ms[0].key == key then ms[0].value else Lookup(ms[1..], key)
  }

  /** `Buffer.byteLength` of a text: its length in UTF-8, a lone surrogate counting as U+FFFD. */
  function Utf8Length(s: Text): nat {
    if s == [] then 0
    else if IsLead(s[0]) && |s| > 1 && IsTrail(s[1]) then 4 + Utf8Length(s[2..])
    else (if s[0] < 0x80 then 1 else if s[0] < 0x800 then 2 else 3) + Utf8Length(s[1..])
  }
}
