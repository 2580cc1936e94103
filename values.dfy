/** The JavaScript values the transformer walks: what `JSON.parse` produces,
    plus `undefined` (the reading of a missing key) and a `Date` instance (what
    the Date descriptor produces). */
module JsonValues {

  datatype Value =
    | Undefined
    | Null
    | Bool(b: bool)
    | Num(n: real)          // the engine only ever asks for the kind of a number
    | Str(s: string)
    | Arr(elems: seq<Value>)
    | Obj(members: seq<Member>)   // own properties, in insertion order
    | DateV(time: int)      // milliseconds since the epoch

  datatype Member = Member(key: string, value: Value)

  /** JavaScript's `typeof` on a value. */
  function TypeOf(v: Value): string {
    match v
    case Undefined => "undefined"
    case Bool(_) => "boolean"
    case Num(_) => "number"
    case Str(_) => "string"
    case _ => "object"
  }

  /** The own property list that `Object.getOwnPropertyNames` reports for a value
      that passed the object check: a plain object's members, none for a Date. */
  function Own(v: Value): seq<Member> {
    if v.Obj? then v.members else []
  }

  /** The keys of a member list, in order. */
  function Keys(ms: seq<Member>): (ks: seq<string>)
    ensures |ks| == |ms|
  {
    seq(|ms|, i requires 0 <= i < |ms| => ms[i].key)
  }

  /** `Object.prototype.hasOwnProperty.call(val, k)` on a member list. */
  predicate HasKey(ms: seq<Member>, k: string) {
    exists i :: 0 <= i < |ms| && ms[i].key == k
  }

  /** Index of the first member named `k` at or after `from`, or -1. */
  function FindKeyFrom(ms: seq<Member>, k: string, from: nat): (i: int)
    requires from <= |ms|
    ensures i == -1 || from <= i < |ms|
    ensures i == -1 ==> forall j :: from <= j < |ms| ==> ms[j].key != k
    ensures 0 <= i ==> ms[i].key == k && forall j :: from <= j < i ==> ms[j].key != k
    decreases |ms| - from
  {
    if from == |ms| then -1
    else if ms[from].key == k then from
    else FindKeyFrom(ms, k, from + 1)
  }

  /** Index of the first member named `k`, or -1: where `val[k]` reads. */
  function FindKey(ms: seq<Member>, k: string): (i: int)
    ensures -1 <= i < |ms|
    ensures i == -1 <==> !HasKey(ms, k)
    ensures 0 <= i ==> ms[i].key == k && forall j :: 0 <= j < i ==> ms[j].key != k
  {
    FindKeyFrom(ms, k, 0)
  }

  /** `hasOwnProperty(val, k) ? val[k] : undefined` on a value that passed the object check. */
  function ValueAt(v: Value, k: string): (r: Value)
    ensures !HasKey(Own(v), k) ==> r == Undefined
    ensures HasKey(Own(v), k) ==> exists i :: 0 <= i < |Own(v)| && Own(v)[i].key == k && r == Own(v)[i].value
  {
    var i := FindKey(Own(v), k);
    if i == -1 then Undefined else Own(v)[i].value
  }

  /** `result[k] = x` on a plain object: an existing key keeps its position and
      takes the new value, a new key is appended. */
  function Put(ms: seq<Member>, k: string, x: Value): (r: seq<Member>)
    ensures HasKey(ms, k) ==> |r| == |ms| && Keys(r) == Keys(ms)
    ensures HasKey(ms, k) ==> r[FindKey(ms, k)] == Member(k, x)
    ensures HasKey(ms, k) ==> forall j :: 0 <= j < |ms| && j != FindKey(ms, k) ==> r[j] == ms[j]
    ensures !HasKey(ms, k) ==> r == ms + [Member(k, x)]
  {
    var i := FindKey(ms, k);
    if i == -1 then ms + [Member(k, x)]
    else
      var r := ms[i := Member(k, x)];
      assert Keys(r) == Keys(ms);
      r
  }

  /** After `result[k] = x`, reading `result[k]` gives `x`. */
  lemma PutThenRead(ms: seq<Member>, k: string, x: Value)
    ensures HasKey(Put(ms, k, x), k) && Put(ms, k, x)[FindKey(Put(ms, k, x), k)].value == x
  {
    var r := Put(ms, k, x);
    var i := FindKey(ms, k);
    if i == -1 {
      assert r[|ms|].key == k;
    } else {
      assert forall j :: 0 <= j < i ==> r[j] == ms[j];
      assert r[i].key == k;
      assert FindKey(r, k) == i;
    }
  }

  /** `result[k] = x` leaves every other key reading what it read before. */
  lemma PutElsewhere(ms: seq<Member>, k: string, x: Value, k2: string)
    requires k2 != k
    ensures HasKey(Put(ms, k, x), k2) == HasKey(ms, k2)
    ensures ValueAt(Obj(Put(ms, k, x)), k2) == ValueAt(Obj(ms), k2)
  {
    var r := Put(ms, k, x);
    var i := FindKey(ms, k);
    var j := FindKey(ms, k2);
    if i == -1 {
      assert r[|ms|].key == k;
      if j != -1 {
        assert r[j] == ms[j];
      }
      assert FindKey(r, k2) == j;
    } else {
      assert forall t :: 0 <= t < |ms| && t != i ==> r[t] == ms[t];
      assert r[i].key == k;
      if j != -1 {
        assert r[j] == ms[j];
      }
      assert FindKey(r, k2) == j;
    }
  }

  predicate DistinctKeys(ms: seq<Member>) {
    forall i, j :: 0 <= i < j < |ms| ==> ms[i].key != ms[j].key
  }
}
