/** The round trip: a value that `cast` produced is a fixed point of both
    directions, so `uncast` hands it back unchanged and casting that again
    reproduces it. This holds for tables whose fields agree on their json and
    js names (as all three generated tables do), whose date parser reads a
    `Date` back as the same instant, and whose unions never let an earlier
    member take what a later member produced. */
module RoundTrip {
  import opened Wrappers
  import opened JsonValues
  import opened Descriptors
  import opened PropMaps
  import opened Transformer
  import opened TransformRules
  import opened Acceptance
  import opened Directions

  /** The coarse kind of a value that decides which descriptors can take it:
      `typeof`, with null and arrays told apart (a `Date` is an object). */
  datatype Shape = UndefinedS | NullS | BooleanS | NumberS | StringS | ArrayS | ObjectS

  function ShapeOf(v: Value): Shape {
    match v
    case Undefined => UndefinedS
    case Null => NullS
    case Bool(_) => BooleanS
    case Num(_) => NumberS
    case Str(_) => StringS
    case Arr(_) => ArrayS
    case _ => ObjectS
  }

  const AllShapes: set<Shape> := {UndefinedS, NullS, BooleanS, NumberS, StringS, ArrayS, ObjectS}

  function KindShape(k: Kind): Shape {
    match k
    case StringKind => StringS
    case NumberKind => NumberS
    case BooleanKind => BooleanS
    case UndefinedKind => UndefinedS
  }

  /** The shapes a descriptor may accept; a union is taken to accept every shape. */
  function Accepted(m: TypeMap, typ: Typ): set<Shape> {
    match typ
    case AnyT => AllShapes
    case NullT => {NullS}
    case FalseT => {}
    case RefT(n) =>
      if n !in m then {UndefinedS}
      else if m[n].ObjectT? then {ObjectS}
      else if m[n].EnumT? then {StringS}
      else AllShapes
    case EnumT(_) => {StringS}
    case UnionT(_) => AllShapes
    case ArrayT(_) => {ArrayS}
    case ObjectT(_, _) => {ObjectS}
    case DateT => AllShapes - {NumberS}
    case PrimT(k) => {KindShape(k)}
  }

  /** The shapes a successful walk against a descriptor may produce: what it
      accepts, except that `Date` turns text into a `Date` instance. */
  function Produced(m: TypeMap, typ: Typ): set<Shape> {
    if typ.DateT? then {NullS, ObjectS} else Accepted(m, typ)
  }

  /** Descriptors whose successful walk returns its input as it is. */
  predicate Keeps(m: TypeMap, typ: Typ) {
    || typ.AnyT? || typ.NullT? || typ.FalseT? || typ.EnumT? || typ.PrimT?
    || (typ.RefT? && (typ.name !in m || m[typ.name].EnumT?))
  }

  /** In every union inside `typ`, a member either returns its input unchanged
      or produces only shapes that no earlier member accepts. */
  predicate Stable(m: TypeMap, typ: Typ) {
    match typ
    case UnionT(ms) =>
      && (forall i :: 0 <= i < |ms| ==> Stable(m, ms[i]))
      && forall j, i :: 0 <= j < i < |ms| ==> Keeps(m, ms[i]) || Accepted(m, ms[j]) * Produced(m, ms[i]) == {}
    case ArrayT(items) => Stable(m, items)
    case ObjectT(props, additional) => (forall i :: 0 <= i < |props| ==> Stable(m, props[i].typ)) && Stable(m, additional)
    case _ => true
  }

  predicate FieldsStable(m: TypeMap, props: seq<Prop>) {
    forall i :: 0 <= i < |props| ==> Stable(m, props[i].typ)
  }

  /** Field lists whose descriptors are stable join into one. */
  lemma FieldsStableJoin(m: TypeMap, a: seq<Prop>, b: seq<Prop>)
    requires FieldsStable(m, a) && FieldsStable(m, b)
    ensures FieldsStable(m, a + b)
  {
    forall i | 0 <= i < |a + b|
      ensures Stable(m, (a + b)[i].typ)
    {
      if i >= |a| {
        assert (a + b)[i] == b[i - |a|];
      }
    }
  }

  predicate StableTable(m: TypeMap) {
    forall n :: n in m ==> Stable(m, m[n])
  }

  /** `new Date(d)` on a `Date` instance is the same instant. */
  ghost predicate ReparsesDates(parseDate: Value -> Option<int>) {
    forall time :: parseDate(DateV(time)) == Some(time)
  }

  /** What the round trip needs of a context. */
  ghost predicate Settling(ctx: Context) {
    && ValidTypeMap(ctx.typeMap)
    && TypeMapNamesAgree(ctx.typeMap)
    && StableTable(ctx.typeMap)
    && ReparsesDates(ctx.parseDate)
  }

  // ------------------------------------------------------------ shapes

  /** A value of a shape the descriptor does not accept is rejected. */
  lemma AcceptedSound(ctx: Context, val: Value, typ: Typ, key: string, parent: string)
    requires ValidTypeMap(ctx.typeMap)
    requires ShapeOf(val) !in Accepted(ctx.typeMap, typ)
    ensures Transform(ctx, val, typ, key, parent).Fail?
  {
    if typ.PrimT? || (typ.RefT? && typ.name !in ctx.typeMap) {
      var k := if typ.PrimT? then typ.kind else UndefinedKind;
      assert KindTypeOf(k) != TypeOf(val);
    }
  }

  /** A successful walk produces one of the descriptor's produced shapes. */
  lemma ProducedSound(ctx: Context, val: Value, typ: Typ, key: string, parent: string)
    requires ValidTypeMap(ctx.typeMap)
    requires Transform(ctx, val, typ, key, parent).Ok?
    ensures ShapeOf(Transform(ctx, val, typ, key, parent).value) in Produced(ctx.typeMap, typ)
  {
    var (t, ref) := Resolve(ctx.typeMap, typ);
    if t.ObjectT? {
      assert Transform(ctx, val, typ, key, parent) == TransformObject(ctx, val, t, ref, key, parent);
    } else if t.ArrayT? {
      ArrayRule(ctx, val, t.items, key, parent);
    } else if t.PrimT? {
      assert KindTypeOf(t.kind) == TypeOf(val);
    }
  }

  /** A descriptor that keeps its input returns it unchanged when it succeeds. */
  lemma KeepsSound(ctx: Context, val: Value, typ: Typ, key: string, parent: string)
    requires ValidTypeMap(ctx.typeMap)
    requires Keeps(ctx.typeMap, typ) && Transform(ctx, val, typ, key, parent).Ok?
    ensures Transform(ctx, val, typ, key, parent).value == val
  {
  }

  // ------------------------------------------------------------ fixed points

  /** The output of a successful walk is a fixed point of the same walk. */
  lemma {:induction false} Settled(ctx: Context, val: Value, typ: Typ, key: string, parent: string)
    requires ValidTypeMap(ctx.typeMap) && Settling(ctx)
    requires NamesAgree(typ) && Stable(ctx.typeMap, typ)
    requires Transform(ctx, val, typ, key, parent).Ok?
    ensures Transform(ctx, Transform(ctx, val, typ, key, parent).value, typ, key, parent) == Transform(ctx, val, typ, key, parent)
    decreases Present(val), val, Flag(typ), typ, 3
  {
    if !(typ.AnyT? || typ.NullT? || typ.FalseT?) {
      var (t, ref) := Resolve(ctx.typeMap, typ);
      assert NamesAgree(t) && Stable(ctx.typeMap, t);
      if t.UnionT? {
        UnionSettled(ctx, val, t, key, parent);
      } else if t.ArrayT? {
        ArraySettled(ctx, val, t, key, parent);
      } else if t.ObjectT? {
        ObjectSettled(ctx, val, t, ref, key, parent);
      } else if t.DateT? && !val.Null? {
        match ctx.parseDate(val)
        case Some(time) =>
          assert ctx.parseDate(DateV(time)) == Some(time) by {
            assert ReparsesDates(ctx.parseDate);
          }
        case None =>
      }
    }
  }

  /** A union's output is taken again by the same member, and by no earlier one. */
  lemma {:induction false} UnionSettled(ctx: Context, val: Value, t: Typ, key: string, parent: string)
    requires ValidTypeMap(ctx.typeMap) && Settling(ctx)
    requires t.UnionT? && NamesAgree(t) && Stable(ctx.typeMap, t)
    requires Transform(ctx, val, t, key, parent).Ok?
    ensures Transform(ctx, Transform(ctx, val, t, key, parent).value, t, key, parent) == Transform(ctx, val, t, key, parent)
    decreases Present(val), val, 1, t, 1
  {
    var ms := t.members;
    var w := Transform(ctx, val, t, key, parent).value;
    UnionRule(ctx, val, ms, key, parent);
    var i :| 0 <= i < |ms|
      && Transform(ctx, val, ms[i], "", "") == Transform(ctx, val, t, key, parent)
      && forall k :: 0 <= k < i ==> Transform(ctx, val, ms[k], "", "").Fail?;
    assert Transform(ctx, val, ms[i], "", "") == Ok(w);
    MembersAgreeFromAt(t, 0, i);
    Settled(ctx, val, ms[i], "", "");
    forall k | 0 <= k < i
      ensures Transform(ctx, w, ms[k], "", "").Fail?
    {
      EarlierMemberRejects(ctx, val, w, ms, i, k);
    }
    UnionFirstSuccessWins(ctx, w, ms, i, key, parent);
  }

  /** A member earlier than the one that produced `w` rejects `w`, when that
      member failed on the input and the later member keeps its input or
      produces shapes the earlier one does not accept. */
  lemma EarlierMemberRejects(ctx: Context, val: Value, w: Value, ms: seq<Typ>, i: nat, k: nat)
    requires ValidTypeMap(ctx.typeMap)
    requires k < i < |ms| && Transform(ctx, val, ms[i], "", "") == Ok(w)
    requires Transform(ctx, val, ms[k], "", "").Fail?
    requires Keeps(ctx.typeMap, ms[i]) || Accepted(ctx.typeMap, ms[k]) * Produced(ctx.typeMap, ms[i]) == {}
    ensures Transform(ctx, w, ms[k], "", "").Fail?
  {
    if Keeps(ctx.typeMap, ms[i]) {
      KeepsSound(ctx, val, ms[i], "", "");
      assert w == val;
    } else {
      ProducedSound(ctx, val, ms[i], "", "");
      var a, b := Accepted(ctx.typeMap, ms[k]), Produced(ctx.typeMap, ms[i]);
      assert ShapeOf(w) in b && ShapeOf(w) !in a * b;
      assert ShapeOf(w) !in a;
      AcceptedSound(ctx, w, ms[k], "", "");
    }
  }

  /** An array's output holds fixed points, so the walk returns it unchanged. */
  lemma {:induction false} ArraySettled(ctx: Context, val: Value, t: Typ, key: string, parent: string)
    requires ValidTypeMap(ctx.typeMap) && Settling(ctx)
    requires t.ArrayT? && NamesAgree(t) && Stable(ctx.typeMap, t)
    requires Transform(ctx, val, t, key, parent).Ok?
    ensures Transform(ctx, Transform(ctx, val, t, key, parent).value, t, key, parent) == Transform(ctx, val, t, key, parent)
    decreases Present(val), val, 0, t, 1
  {
    ArrayRule(ctx, val, t.items, key, parent);
    var w := Transform(ctx, val, t, key, parent).value;
    forall j | 0 <= j < |w.elems|
      ensures Transform(ctx, w.elems[j], t.items, "", "") == Ok(w.elems[j])
    {
      Settled(ctx, val.elems[j], t.items, "", "");
    }
    ElemsFixed(ctx, w, t, 0);
    assert w.elems[0..] == w.elems;
    assert Transform(ctx, w, t, key, parent) == Ok(Arr(w.elems));
  }

  /** The element walk over elements that are fixed points returns them. */
  lemma {:induction false} ElemsFixed(ctx: Context, w: Value, t: Typ, i: nat)
    requires ValidTypeMap(ctx.typeMap)
    requires w.Arr? && t.ArrayT? && i <= |w.elems|
    requires forall j :: i <= j < |w.elems| ==> Transform(ctx, w.elems[j], t.items, "", "") == Ok(w.elems[j])
    ensures ElemsFrom(ctx, w, t, i) == Ok(w.elems[i..])
    decreases |w.elems| - i
  {
    if i < |w.elems| {
      ElemsFixed(ctx, w, t, i + 1);
      assert Transform(ctx, w.elems[i], t.items, "", "") == Ok(w.elems[i]);
      assert ElemsFrom(ctx, w, t, i) == Ok([w.elems[i]] + w.elems[i + 1..]);
      assert [w.elems[i]] + w.elems[i + 1..] == w.elems[i..];
    } else {
      assert w.elems[i..] == [];
    }
  }

  /** `ms` from position `n` on holds undeclared members whose values are fixed
      points of `additional`, and before `n` declared ones; all keys differ. */
  predicate Settles(ctx: Context, t: Typ, pm: seq<Binding>, ref: string, ms: seq<Member>, n: nat)
    requires ValidTypeMap(ctx.typeMap) && t.ObjectT?
  {
    && n <= |ms|
    && DistinctKeys(ms)
    && (forall k :: 0 <= k < n ==> HasName(pm, ms[k].key))
    && forall k :: n <= k < |ms| ==>
         !HasName(pm, ms[k].key) && Transform(ctx, ms[k].value, t.additional, ms[k].key, ref) == Ok(ms[k].value)
  }

  /** The map of an agreeing descriptor reads and writes each field under one
      name, and its entries are agreeing, stable descriptors. */
  lemma AgreeingMap(m: TypeMap, t: Typ, dir: Dir)
    requires t.ObjectT? && NamesAgree(t) && Stable(m, t)
    ensures var pm := BuildPropMap(t.props, dir);
      && DistinctNames(pm) && DistinctTargets(pm)
      && forall k :: 0 <= k < |pm| ==> pm[k].name == pm[k].target && NamesAgree(pm[k].typ) && Stable(m, pm[k].typ)
  {
    var pm := BuildPropMap(t.props, dir);
    BuildPropMapNames(t.props, dir, "");
    BuildPropMapEntries(t.props, dir);
    forall k | 0 <= k < |pm|
      ensures pm[k].name == pm[k].target && NamesAgree(pm[k].typ) && Stable(m, pm[k].typ)
    {
      assert pm[k] in pm;
      var x :| 0 <= x < |t.props| && pm[k] == BindingOf(t.props[x], dir);
      PropsAgreeFromAt(t, 0, x);
    }
  }

  /** An object's output holds its declared fields under their own names, each a
      fixed point, then its undeclared keys, each a fixed point of `additional`. */
  lemma {:induction false} ObjectSettled(ctx: Context, val: Value, t: Typ, ref: string, key: string, parent: string)
    requires ValidTypeMap(ctx.typeMap) && Settling(ctx)
    requires t.ObjectT? && NamesAgree(t) && Stable(ctx.typeMap, t)
    requires TransformObject(ctx, val, t, ref, key, parent).Ok?
    ensures TransformObject(ctx, TransformObject(ctx, val, t, ref, key, parent).value, t, ref, key, parent) ==
      TransformObject(ctx, val, t, ref, key, parent)
    decreases Present(val), val, 0, t, 2
  {
    var pm := BuildPropMap(t.props, ctx.dir);
    AgreeingMap(ctx.typeMap, t, ctx.dir);
    ObjectOkParts(ctx, val, t, ref, key, parent);
    var outs := seq(|pm|, i requires 0 <= i < |pm| => FieldOutcome(ctx, val, pm[i], ref).value);
    ObjectForward(ctx, val, t, pm, outs, ref, key, parent);
    var declared := Appended(pm, outs, 0);
    var all := ExtrasFrom(ctx, val, t, pm, 0, declared, ref).value;
    FieldsBack(ctx, val, t, pm, outs, all, ref);
    FieldsFromAllOk(ctx, Obj(all), t, pm, outs, 0, [], ref);
    assert [] + declared == declared;
    ExtrasFixed(ctx, Obj(all), t, pm, 0, declared, ref, |pm|);
  }

  /** The first walk: the declared fields come first, then settled undeclared members. */
  lemma ObjectForward(ctx: Context, val: Value, t: Typ, pm: seq<Binding>, outs: seq<Value>, ref: string, key: string, parent: string)
    requires ValidTypeMap(ctx.typeMap) && Settling(ctx)
    requires t.ObjectT? && NamesAgree(t) && Stable(ctx.typeMap, t) && (val.Obj? || val.DateV?)
    requires pm == BuildPropMap(t.props, ctx.dir) && |outs| == |pm|
    requires DistinctTargets(pm) && forall k :: 0 <= k < |pm| ==> pm[k].name == pm[k].target
    requires forall i :: 0 <= i < |pm| ==> FieldOutcome(ctx, val, pm[i], ref) == Ok(outs[i])
    requires TransformObject(ctx, val, t, ref, key, parent).Ok?
    ensures var all := ExtrasFrom(ctx, val, t, pm, 0, Appended(pm, outs, 0), ref);
      && all.Ok?
      && TransformObject(ctx, val, t, ref, key, parent) == Ok(Obj(all.value))
      && Settles(ctx, t, pm, ref, all.value, |pm|)
      && all.value[..|pm|] == Appended(pm, outs, 0)
    decreases Present(val), val, 0, t, 1
  {
    FieldsFromAllOk(ctx, val, t, pm, outs, 0, [], ref);
    var declared := Appended(pm, outs, 0);
    assert [] + declared == declared;
    DeclaredSettles(ctx, t, pm, outs, ref);
    ExtrasShape(ctx, val, t, pm, 0, declared, ref, |pm|);
  }

  /** Each declared field of the output reads back its own output, a fixed point. */
  lemma FieldsBack(ctx: Context, val: Value, t: Typ, pm: seq<Binding>, outs: seq<Value>, all: seq<Member>, ref: string)
    requires ValidTypeMap(ctx.typeMap) && Settling(ctx)
    requires t.ObjectT? && (val.Obj? || val.DateV?) && |outs| == |pm|
    requires forall k :: 0 <= k < |pm| ==> pm[k].name == pm[k].target && NamesAgree(pm[k].typ) && Stable(ctx.typeMap, pm[k].typ)
    requires forall i :: 0 <= i < |pm| ==> FieldOutcome(ctx, val, pm[i], ref) == Ok(outs[i])
    requires |pm| <= |all| && DistinctKeys(all) && all[..|pm|] == Appended(pm, outs, 0)
    ensures forall i :: 0 <= i < |pm| ==> FieldOutcome(ctx, Obj(all), pm[i], ref) == Ok(outs[i])
    decreases Present(val), val, 0, t, 1
  {
    forall i | 0 <= i < |pm|
      ensures FieldOutcome(ctx, Obj(all), pm[i], ref) == Ok(outs[i])
    {
      AppendedAt(pm, outs, 0, i);
      assert all[i] == all[..|pm|][i];
      FieldBack(ctx, val, t, pm[i], outs[i], all, ref, i);
    }
  }

  /** One declared field of the output reads back its own output, a fixed point. */
  lemma FieldBack(ctx: Context, val: Value, t: Typ, b: Binding, out: Value, all: seq<Member>, ref: string, i: nat)
    requires ValidTypeMap(ctx.typeMap) && Settling(ctx)
    requires t.ObjectT? && (val.Obj? || val.DateV?)
    requires b.name == b.target && NamesAgree(b.typ) && Stable(ctx.typeMap, b.typ)
    requires FieldOutcome(ctx, val, b, ref) == Ok(out)
    requires i < |all| && DistinctKeys(all) && all[i] == Member(b.target, out)
    ensures FieldOutcome(ctx, Obj(all), b, ref) == Ok(out)
    decreases Present(val), val, 0, t, 0
  {
    ReadDeclared(all, i);
    Settled(ctx, ValueAt(val, b.name), b.typ, b.name, ref);
  }

  /** The declared part of the output settles: its keys are the map's names, distinct. */
  lemma DeclaredSettles(ctx: Context, t: Typ, pm: seq<Binding>, outs: seq<Value>, ref: string)
    requires ValidTypeMap(ctx.typeMap) && t.ObjectT? && |outs| == |pm|
    requires DistinctTargets(pm) && forall k :: 0 <= k < |pm| ==> pm[k].name == pm[k].target
    ensures Settles(ctx, t, pm, ref, Appended(pm, outs, 0), |pm|)
  {
    var d := Appended(pm, outs, 0);
    forall k | 0 <= k < |pm|
      ensures d[k].key == pm[k].target
    {
      AppendedAt(pm, outs, 0, k);
    }
  }

  /** In a member list with distinct keys, member `i` is what its key reads. */
  lemma ReadDeclared(ms: seq<Member>, i: nat)
    requires i < |ms| && DistinctKeys(ms)
    ensures ValueAt(Obj(ms), ms[i].key) == ms[i].value
  {
    assert HasKey(ms, ms[i].key);
    assert FindKey(ms, ms[i].key) == i;
  }

  /** The extras pass keeps the declared prefix and leaves every member it
      writes settled. */
  lemma {:induction false} ExtrasShape(ctx: Context, val: Value, t: Typ, pm: seq<Binding>, j: nat, acc: seq<Member>, ref: string, n: nat)
    requires ValidTypeMap(ctx.typeMap) && Settling(ctx)
    requires (val.Obj? || val.DateV?) && t.ObjectT? && NamesAgree(t) && Stable(ctx.typeMap, t) && j <= |Own(val)|
    requires Settles(ctx, t, pm, ref, acc, n)
    requires ExtrasFrom(ctx, val, t, pm, j, acc, ref).Ok?
    ensures var all := ExtrasFrom(ctx, val, t, pm, j, acc, ref).value;
      Settles(ctx, t, pm, ref, all, n) && all[..n] == acc[..n]
    decreases Present(val), val, 0, t, 0, |Own(val)| - j
  {
    if j < |Own(val)| {
      var m := Own(val)[j];
      if HasName(pm, m.key) {
        ExtrasShape(ctx, val, t, pm, j + 1, acc, ref, n);
      } else {
        var r := Transform(ctx, m.value, t.additional, m.key, ref);
        Settled(ctx, m.value, t.additional, m.key, ref);
        var next := Put(acc, m.key, r.value);
        PutSettles(ctx, t, pm, ref, acc, n, Member(m.key, r.value));
        ExtrasShape(ctx, val, t, pm, j + 1, next, ref, n);
      }
    }
  }

  /** Writing a settled undeclared member keeps the list settled and its declared prefix. */
  lemma PutSettles(ctx: Context, t: Typ, pm: seq<Binding>, ref: string, acc: seq<Member>, n: nat, m: Member)
    requires ValidTypeMap(ctx.typeMap) && t.ObjectT?
    requires Settles(ctx, t, pm, ref, acc, n)
    requires !HasName(pm, m.key) && Transform(ctx, m.value, t.additional, m.key, ref) == Ok(m.value)
    ensures Settles(ctx, t, pm, ref, Put(acc, m.key, m.value), n) && Put(acc, m.key, m.value)[..n] == acc[..n]
  {
    var next := Put(acc, m.key, m.value);
    if HasKey(acc, m.key) {
      var p := FindKey(acc, m.key);
      assert next == acc[p := m];
      assert n <= p;
      assert forall k :: 0 <= k < |next| ==> next[k].key == acc[k].key;
    } else {
      assert next == acc + [m];
      assert forall k :: 0 <= k < |acc| ==> next[k] == acc[k];
    }
  }

  /** The extras pass over a settled output writes back exactly what it holds. */
  lemma {:induction false} ExtrasFixed(ctx: Context, w: Value, t: Typ, pm: seq<Binding>, j: nat, acc: seq<Member>, ref: string, n: nat)
    requires ValidTypeMap(ctx.typeMap)
    requires w.Obj? && t.ObjectT? && j <= |Own(w)|
    requires Settles(ctx, t, pm, ref, Own(w), n)
    requires acc == Own(w)[..if j < n then n else j]
    ensures ExtrasFrom(ctx, w, t, pm, j, acc, ref) == Ok(Own(w))
    decreases |Own(w)| - j
  {
    var own := Own(w);
    if j < |own| {
      var m := own[j];
      if j < n {
        ExtrasFixed(ctx, w, t, pm, j + 1, acc, ref, n);
      } else {
        assert !HasKey(acc, m.key) by {
          forall y | 0 <= y < |acc|
            ensures acc[y].key != m.key
          {
            assert acc[y] == own[y];
          }
        }
        assert acc + [m] == own[..j + 1];
        ExtrasFixed(ctx, w, t, pm, j + 1, own[..j + 1], ref, n);
      }
    } else {
      assert acc == own;
    }
  }

  // ------------------------------------------------------------ the round trip

  /** What `cast` produced, `uncast` returns unchanged, and casting that again
      reproduces it: `cast(uncast(cast(x))) == cast(x)`. */
  lemma CastRoundTrip(typeMap: TypeMap, parseDate: Value -> Option<int>, x: Value, typ: Typ)
    requires ValidTypeMap(typeMap) && TypeMapNamesAgree(typeMap) && StableTable(typeMap) && ReparsesDates(parseDate)
    requires NamesAgree(typ) && Stable(typeMap, typ)
    requires CastValue(typeMap, parseDate, x, typ).Ok?
    ensures var v := CastValue(typeMap, parseDate, x, typ).value;
      && UncastValue(typeMap, parseDate, v, typ) == Ok(v)
      && CastValue(typeMap, parseDate, v, typ) == Ok(v)
  {
    var ctx := Context(typeMap, Cast, parseDate);
    Settled(ctx, x, typ, "", "");
    var v := CastValue(typeMap, parseDate, x, typ).value;
    CastEqualsUncast(typeMap, parseDate, v, typ);
  }

  /** Without the union condition the round trip can fail: a string that only
      `Date` accepts becomes a `Date` instance, which an earlier object member
      with no required field then accepts as an empty object. */
  lemma UnstableUnionBreaksRoundTrip()
    ensures var typ := UnionT([ObjectT([], AnyT), DateT]);
      var parseDate := (v: Value) => if v.DateV? then Some(v.time) else if v.Str? then Some(0) else None;
      && ReparsesDates(parseDate)
      && !Stable(map[], typ)
      && CastValue(map[], parseDate, Str("2024-01-01"), typ) == Ok(DateV(0))
      && CastValue(map[], parseDate, DateV(0), typ) == Ok(Obj([]))
  {
    var typ := UnionT([ObjectT([], AnyT), DateT]);
    var parseDate := (v: Value) => if v.DateV? then Some(v.time) else if v.Str? then Some(0) else None;
    var ctx := Context(map[], Cast, parseDate);
    assert ObjectS in Accepted(map[], typ.members[0]) * Produced(map[], typ.members[1]);
    assert Transform(ctx, Str("2024-01-01"), typ.members[0], "", "").Fail?;
    assert Transform(ctx, Str("2024-01-01"), typ.members[1], "", "") == Ok(DateV(0));
    UnionFirstSuccessWins(ctx, Str("2024-01-01"), typ.members, 1, "", "");
    assert BuildPropMap([], Cast) == [];
    assert Transform(ctx, DateV(0), typ.members[0], "", "") == Ok(Obj([]));
    UnionFirstSuccessWins(ctx, DateV(0), typ.members, 0, "", "");
  }
}
