/** What each branch of `transform` promises, stated over the engine's result:
    markers, enums, primitives, dates, arrays, unions, objects and references. */
module TransformRules {
  import opened Wrappers
  import opened JsonValues
  import opened Descriptors
  import opened PropMaps
  import opened Messages
  import opened Transformer

  /** `"any"` returns its input, `null` accepts only null, `false` rejects everything. */
  lemma MarkerRules(ctx: Context, val: Value, key: string, parent: string)
    requires ValidTypeMap(ctx.typeMap)
    ensures Transform(ctx, val, AnyT, key, parent) == Ok(val)
    ensures Transform(ctx, val, NullT, key, parent).Ok? <==> val.Null?
    ensures Transform(ctx, val, NullT, key, parent).Ok? ==> Transform(ctx, val, NullT, key, parent).value == Null
    ensures !val.Null? ==> Transform(ctx, val, NullT, key, parent) == Fail(InvalidValue(Descriptor(NullT), val, key, parent))
    ensures Transform(ctx, val, FalseT, key, parent) == Fail(InvalidValue(Descriptor(FalseT), val, key, parent))
  {
  }

  /** An enum accepts exactly its listed strings, unchanged, and otherwise names every literal. */
  lemma EnumRule(ctx: Context, val: Value, cases: seq<string>, key: string, parent: string)
    requires ValidTypeMap(ctx.typeMap)
    ensures Transform(ctx, val, EnumT(cases), key, parent).Ok? <==> exists i :: 0 <= i < |cases| && val == Str(cases[i])
    ensures Transform(ctx, val, EnumT(cases), key, parent).Ok? ==> Transform(ctx, val, EnumT(cases), key, parent).value == val
    ensures Transform(ctx, val, EnumT(cases), key, parent).Fail? ==>
      Transform(ctx, val, EnumT(cases), key, parent).error == InvalidValue(Literals(cases), val, key, parent)
  {
    if val.Str? && val.s in cases {
      var i :| 0 <= i < |cases| && cases[i] == val.s;
      assert val == Str(cases[i]);
    }
  }

  /** Primitive markers compare kinds only and return the value unchanged. */
  lemma PrimitiveRule(ctx: Context, val: Value, k: Kind, key: string, parent: string)
    requires ValidTypeMap(ctx.typeMap)
    ensures Transform(ctx, val, PrimT(k), key, parent).Ok? <==>
      match k
      case StringKind => val.Str?
      case NumberKind => val.Num?
      case BooleanKind => val.Bool?
      case UndefinedKind => val.Undefined?
    ensures Transform(ctx, val, PrimT(k), key, parent).Ok? ==> Transform(ctx, val, PrimT(k), key, parent).value == val
    ensures Transform(ctx, val, PrimT(k), key, parent).Fail? ==>
      Transform(ctx, val, PrimT(k), key, parent).error == InvalidValue(Descriptor(PrimT(k)), val, key, parent)
  {
  }

  /** `Date`: null passes as null, a number is refused, anything else goes to the parser. */
  lemma DateRule(ctx: Context, val: Value, key: string, parent: string)
    requires ValidTypeMap(ctx.typeMap)
    ensures val.Null? ==> Transform(ctx, val, DateT, key, parent) == Ok(Null)
    ensures val.Num? ==> Transform(ctx, val, DateT, key, parent) == Fail(InvalidValue(Descriptor(DateT), val, key, parent))
    ensures !val.Null? && !val.Num? ==>
      match ctx.parseDate(val)
      case None => Transform(ctx, val, DateT, key, parent) == Fail(InvalidValue(Literal("Date"), val, key, parent))
      case Some(time) => Transform(ctx, val, DateT, key, parent) == Ok(DateV(time))
  {
  }

  /** An optional `u(undefined, X)` accepts the `undefined` a missing key reads as. */
  lemma OptionalAcceptsAbsent(ctx: Context, x: Typ, key: string, parent: string)
    requires ValidTypeMap(ctx.typeMap)
    ensures Transform(ctx, Undefined, UnionT([UndefinedMarker, x]), key, parent) == Ok(Undefined)
  {
    assert Transform(ctx, Undefined, UndefinedMarker, "", "") == Ok(Undefined);
  }

  // ---------------------------------------------------------------- arrays

  lemma {:induction false} ElemsFromResults(ctx: Context, val: Value, t: Typ, i: nat)
    requires ValidTypeMap(ctx.typeMap)
    requires val.Arr? && t.ArrayT? && i <= |val.elems|
    ensures ElemsFrom(ctx, val, t, i).Ok? ==>
      && |ElemsFrom(ctx, val, t, i).value| == |val.elems| - i
      && forall j :: i <= j < |val.elems| ==>
           Transform(ctx, val.elems[j], t.items, "", "") == Ok(ElemsFrom(ctx, val, t, i).value[j - i])
    ensures ElemsFrom(ctx, val, t, i).Fail? ==>
      exists j :: i <= j < |val.elems|
        && Transform(ctx, val.elems[j], t.items, "", "") == Fail(ElemsFrom(ctx, val, t, i).error)
        && forall k :: i <= k < j ==> Transform(ctx, val.elems[k], t.items, "", "").Ok?
    decreases |val.elems| - i
  {
    if i < |val.elems| {
      ElemsFromResults(ctx, val, t, i + 1);
      var r := ElemsFrom(ctx, val, t, i);
      var head := Transform(ctx, val.elems[i], t.items, "", "");
      var rest := ElemsFrom(ctx, val, t, i + 1);
      if r.Ok? {
        assert head.Ok? && rest.Ok? && r.value == [head.value] + rest.value;
        forall j | i <= j < |val.elems|
          ensures Transform(ctx, val.elems[j], t.items, "", "") == Ok(r.value[j - i])
        {
          if j > i {
            assert r.value[j - i] == rest.value[j - (i + 1)];
          }
        }
      } else if head.Ok? {
        var j :| i + 1 <= j < |val.elems|
          && Transform(ctx, val.elems[j], t.items, "", "") == Fail(rest.error)
          && forall k :: i + 1 <= k < j ==> Transform(ctx, val.elems[k], t.items, "", "").Ok?;
        assert rest.Fail? && r.error == rest.error;
      }
    }
  }

  /** `transformArray`: a non-array fails with "array"; otherwise element i of the
      output is the transform of element i, and the first bad element fails the call. */
  lemma ArrayRule(ctx: Context, val: Value, items: Typ, key: string, parent: string)
    requires ValidTypeMap(ctx.typeMap)
    ensures !val.Arr? ==> Transform(ctx, val, ArrayT(items), key, parent) == Fail(InvalidValue(Literal("array"), val, key, parent))
    ensures Transform(ctx, val, ArrayT(items), key, parent).Ok? ==>
      && val.Arr?
      && Transform(ctx, val, ArrayT(items), key, parent).value.Arr?
      && |Transform(ctx, val, ArrayT(items), key, parent).value.elems| == |val.elems|
      && forall j :: 0 <= j < |val.elems| ==>
           Transform(ctx, val.elems[j], items, "", "") == Ok(Transform(ctx, val, ArrayT(items), key, parent).value.elems[j])
    ensures val.Arr? && Transform(ctx, val, ArrayT(items), key, parent).Fail? ==>
      exists j :: 0 <= j < |val.elems|
        && Transform(ctx, val.elems[j], items, "", "") == Transform(ctx, val, ArrayT(items), key, parent)
        && forall k :: 0 <= k < j ==> Transform(ctx, val.elems[k], items, "", "").Ok?
  {
    if val.Arr? {
      ElemsFromResults(ctx, val, ArrayT(items), 0);
      var e := ElemsFrom(ctx, val, ArrayT(items), 0);
      assert Transform(ctx, val, ArrayT(items), key, parent) == if e.Ok? then Ok(Arr(e.value)) else Fail(e.error);
    }
  }

  // ---------------------------------------------------------------- unions

  lemma {:induction false} UnionFromFirstMatch(ctx: Context, val: Value, t: Typ, i: nat)
    requires ValidTypeMap(ctx.typeMap)
    requires t.UnionT? && i <= |t.members|
    ensures UnionFrom(ctx, val, t, i).Some? ==>
      exists j :: i <= j < |t.members|
        && Transform(ctx, val, t.members[j], "", "") == Ok(UnionFrom(ctx, val, t, i).value)
        && forall k :: i <= k < j ==> Transform(ctx, val, t.members[k], "", "").Fail?
    ensures UnionFrom(ctx, val, t, i).None? <==> forall j :: i <= j < |t.members| ==> Transform(ctx, val, t.members[j], "", "").Fail?
    decreases |t.members| - i
  {
    if i < |t.members| {
      UnionFromFirstMatch(ctx, val, t, i + 1);
      if Transform(ctx, val, t.members[i], "", "").Fail? && UnionFrom(ctx, val, t, i).Some? {
        var j :| i + 1 <= j < |t.members|
          && Transform(ctx, val, t.members[j], "", "") == Ok(UnionFrom(ctx, val, t, i + 1).value)
          && forall k :: i + 1 <= k < j ==> Transform(ctx, val, t.members[k], "", "").Fail?;
        assert forall k :: i <= k < j ==> Transform(ctx, val, t.members[k], "", "").Fail?;
      }
    }
  }

  /** `transformUnion`: the first member in declaration order that succeeds gives
      the result; the call fails, naming every member, only when all of them fail. */
  lemma UnionRule(ctx: Context, val: Value, ms: seq<Typ>, key: string, parent: string)
    requires ValidTypeMap(ctx.typeMap)
    ensures Transform(ctx, val, UnionT(ms), key, parent).Ok? ==>
      exists j :: 0 <= j < |ms|
        && Transform(ctx, val, ms[j], "", "") == Transform(ctx, val, UnionT(ms), key, parent)
        && forall k :: 0 <= k < j ==> Transform(ctx, val, ms[k], "", "").Fail?
    ensures Transform(ctx, val, UnionT(ms), key, parent).Fail? <==> forall j :: 0 <= j < |ms| ==> Transform(ctx, val, ms[j], "", "").Fail?
    ensures Transform(ctx, val, UnionT(ms), key, parent).Fail? ==>
      Transform(ctx, val, UnionT(ms), key, parent).error == InvalidValue(Members(ms), val, key, parent)
  {
    UnionFromFirstMatch(ctx, val, UnionT(ms), 0);
  }

  /** A member that succeeds after only failing members decides the union. */
  lemma UnionFirstSuccessWins(ctx: Context, val: Value, ms: seq<Typ>, j: nat, key: string, parent: string)
    requires ValidTypeMap(ctx.typeMap)
    requires j < |ms| && Transform(ctx, val, ms[j], "", "").Ok?
    requires forall k :: 0 <= k < j ==> Transform(ctx, val, ms[k], "", "").Fail?
    ensures Transform(ctx, val, UnionT(ms), key, parent) == Transform(ctx, val, ms[j], "", "")
  {
    UnionRule(ctx, val, ms, key, parent);
    var j' :| 0 <= j' < |ms|
      && Transform(ctx, val, ms[j'], "", "") == Transform(ctx, val, UnionT(ms), key, parent)
      && forall k :: 0 <= k < j' ==> Transform(ctx, val, ms[k], "", "").Fail?;
    if j' < j {
    } else if j < j' {
    }
  }

  // ---------------------------------------------------------------- objects

  /** What the first `forEach` of `transformObject` computes for map entry `b`:
      the field read by its source-side name, with `ref` as the error's parent. */
  function FieldOutcome(ctx: Context, val: Value, b: Binding, ref: string): Outcome
    requires ValidTypeMap(ctx.typeMap)
    requires val.Obj? || val.DateV?
  {
    Transform(ctx, ValueAt(val, b.name), b.typ, b.name, ref)
  }

  predicate DistinctTargets(pm: seq<Binding>) {
    forall a, b :: 0 <= a < b < |pm| ==> pm[a].target != pm[b].target
  }

  /** One step of the first `forEach`, when entry `i` succeeds. */
  lemma FieldsFromStep(ctx: Context, val: Value, t: Typ, pm: seq<Binding>, i: nat, acc: seq<Member>, ref: string)
    requires ValidTypeMap(ctx.typeMap)
    requires (val.Obj? || val.DateV?) && t.ObjectT? && i < |pm|
    requires FieldOutcome(ctx, val, pm[i], ref).Ok?
    ensures FieldsFrom(ctx, val, t, pm, i, acc, ref) ==
      FieldsFrom(ctx, val, t, pm, i + 1, Put(acc, pm[i].target, FieldOutcome(ctx, val, pm[i], ref).value), ref)
  {
  }

  lemma {:induction false} FieldsFromFirstFailure(ctx: Context, val: Value, t: Typ, pm: seq<Binding>, i: nat, acc: seq<Member>, ref: string, j: nat)
    requires ValidTypeMap(ctx.typeMap)
    requires (val.Obj? || val.DateV?) && t.ObjectT? && i <= j < |pm|
    requires forall k :: i <= k < j ==> FieldOutcome(ctx, val, pm[k], ref).Ok?
    requires FieldOutcome(ctx, val, pm[j], ref).Fail?
    ensures FieldsFrom(ctx, val, t, pm, i, acc, ref) == Fail(FieldOutcome(ctx, val, pm[j], ref).error)
    decreases j - i
  {
    if i < j {
      var r := FieldOutcome(ctx, val, pm[i], ref);
      FieldsFromFirstFailure(ctx, val, t, pm, i + 1, Put(acc, pm[i].target, r.value), ref, j);
    }
  }

  /** The members the first pass appends from entry `i` on, when entry `k` produced `outs[k]`. */
  function Appended(pm: seq<Binding>, outs: seq<Value>, i: nat): (ms: seq<Member>)
    requires |outs| == |pm| && i <= |pm|
    ensures |ms| == |pm| - i
    decreases |pm| - i
  {
    if i == |pm| then [] else [Member(pm[i].target, outs[i])] + Appended(pm, outs, i + 1)
  }

  /** Member `k` of what is appended from entry `i` on is entry `k`'s output under its target name. */
  lemma {:induction false} AppendedAt(pm: seq<Binding>, outs: seq<Value>, i: nat, k: nat)
    requires |outs| == |pm| && i <= k < |pm|
    ensures Appended(pm, outs, i)[k - i] == Member(pm[k].target, outs[k])
    decreases k - i
  {
    if i < k {
      AppendedAt(pm, outs, i + 1, k);
    }
  }

  lemma {:induction false} FieldsFromAllOk(ctx: Context, val: Value, t: Typ, pm: seq<Binding>, outs: seq<Value>, i: nat, acc: seq<Member>, ref: string)
    requires ValidTypeMap(ctx.typeMap)
    requires (val.Obj? || val.DateV?) && t.ObjectT? && i <= |pm| == |outs|
    requires forall k :: i <= k < |pm| ==> FieldOutcome(ctx, val, pm[k], ref) == Ok(outs[k])
    requires DistinctTargets(pm)
    requires forall k :: i <= k < |pm| ==> !HasKey(acc, pm[k].target)
    ensures FieldsFrom(ctx, val, t, pm, i, acc, ref) == Ok(acc + Appended(pm, outs, i))
    decreases |pm| - i
  {
    if i < |pm| {
      var m := Member(pm[i].target, outs[i]);
      FieldsFromStep(ctx, val, t, pm, i, acc, ref);
      FreshTargets(pm, i, acc, m);
      FieldsFromAllOk(ctx, val, t, pm, outs, i + 1, acc + [m], ref);
      Regroup(acc, m, Appended(pm, outs, i + 1));
    } else {
      assert acc + Appended(pm, outs, i) == acc;
    }
  }

  lemma Regroup(acc: seq<Member>, m: Member, rest: seq<Member>)
    ensures acc + [m] + rest == acc + ([m] + rest)
  {
  }

  /** Writing entry `i`'s target appends it, and keeps the later targets unused. */
  lemma FreshTargets(pm: seq<Binding>, i: nat, acc: seq<Member>, m: Member)
    requires i < |pm| && DistinctTargets(pm) && m.key == pm[i].target
    requires forall k :: i <= k < |pm| ==> !HasKey(acc, pm[k].target)
    ensures Put(acc, m.key, m.value) == acc + [m]
    ensures forall k :: i + 1 <= k < |pm| ==> !HasKey(acc + [m], pm[k].target)
  {
    assert !HasKey(acc, pm[i].target);
    forall k | i + 1 <= k < |pm|
      ensures !HasKey(acc + [m], pm[k].target)
    {
      assert pm[i].target != pm[k].target;
      assert !HasKey(acc, pm[k].target);
      assert forall x :: 0 <= x < |acc| + 1 ==> (acc + [m])[x].key != pm[k].target by {
        forall x | 0 <= x < |acc| + 1 ensures (acc + [m])[x].key != pm[k].target {
          if x < |acc| {
            assert (acc + [m])[x] == acc[x];
          }
        }
      }
    }
  }

  lemma {:induction false} ExtrasFromAllDeclared(ctx: Context, val: Value, t: Typ, pm: seq<Binding>, j: nat, acc: seq<Member>, ref: string)
    requires ValidTypeMap(ctx.typeMap)
    requires (val.Obj? || val.DateV?) && t.ObjectT? && j <= |Own(val)|
    requires forall k :: j <= k < |Own(val)| ==> HasName(pm, Own(val)[k].key)
    ensures ExtrasFrom(ctx, val, t, pm, j, acc, ref) == Ok(acc)
    decreases |Own(val)| - j
  {
    if j < |Own(val)| {
      ExtrasFromAllDeclared(ctx, val, t, pm, j + 1, acc, ref);
    }
  }

  lemma {:induction false} ExtrasFromFirstFailure(ctx: Context, val: Value, t: Typ, pm: seq<Binding>, j: nat, acc: seq<Member>, ref: string, k: nat)
    requires ValidTypeMap(ctx.typeMap)
    requires (val.Obj? || val.DateV?) && t.ObjectT? && j <= k < |Own(val)|
    requires forall x :: j <= x < k && !HasName(pm, Own(val)[x].key) ==>
      Transform(ctx, Own(val)[x].value, t.additional, Own(val)[x].key, ref).Ok?
    requires !HasName(pm, Own(val)[k].key)
    requires Transform(ctx, Own(val)[k].value, t.additional, Own(val)[k].key, ref).Fail?
    ensures ExtrasFrom(ctx, val, t, pm, j, acc, ref) == Fail(Transform(ctx, Own(val)[k].value, t.additional, Own(val)[k].key, ref).error)
    decreases k - j
  {
    if j < k {
      var m := Own(val)[j];
      if HasName(pm, m.key) {
        ExtrasFromFirstFailure(ctx, val, t, pm, j + 1, acc, ref, k);
      } else {
        var r := Transform(ctx, m.value, t.additional, m.key, ref);
        ExtrasFromFirstFailure(ctx, val, t, pm, j + 1, Put(acc, m.key, r.value), ref, k);
      }
    }
  }

  /** Resolving `r(name)` keeps the name: an object reached through it is transformed
      with that name as `ref`; an enum behaves as itself; a name the table lacks
      leaves the `undefined` marker behind. */
  lemma RefRule(ctx: Context, val: Value, n: string, key: string, parent: string)
    requires ValidTypeMap(ctx.typeMap)
    ensures n in ctx.typeMap && ctx.typeMap[n].ObjectT? ==>
      Transform(ctx, val, RefT(n), key, parent) == TransformObject(ctx, val, ctx.typeMap[n], n, key, parent)
    ensures n in ctx.typeMap && ctx.typeMap[n].EnumT? ==>
      Transform(ctx, val, RefT(n), key, parent) == Transform(ctx, val, ctx.typeMap[n], key, parent)
    ensures n !in ctx.typeMap ==> (Transform(ctx, val, RefT(n), key, parent).Ok? <==> val.Undefined?)
  {
  }

  /** Null, arrays and every non-object fail an object descriptor, naming the
      reference it was reached through, or "object". */
  lemma NonObjectRejected(ctx: Context, val: Value, typ: Typ, key: string, parent: string)
    requires ValidTypeMap(ctx.typeMap)
    requires typ.ObjectT? || (typ.RefT? && typ.name in ctx.typeMap && ctx.typeMap[typ.name].ObjectT?)
    requires !val.Obj? && !val.DateV?
    ensures Transform(ctx, val, typ, key, parent) ==
      Fail(InvalidValue(Literal(if typ.RefT? && typ.name != "" then typ.name else "object"), val, key, parent))
  {
  }

  /** Declared fields are checked in declaration order and the first that fails
      decides the call, before any undeclared key is looked at. */
  lemma ObjectFirstFieldFailure(ctx: Context, val: Value, t: Typ, ref: string, key: string, parent: string, j: nat)
    requires ValidTypeMap(ctx.typeMap)
    requires t.ObjectT? && (val.Obj? || val.DateV?)
    requires j < |BuildPropMap(t.props, ctx.dir)|
    requires forall k :: 0 <= k < j ==> FieldOutcome(ctx, val, BuildPropMap(t.props, ctx.dir)[k], ref).Ok?
    requires FieldOutcome(ctx, val, BuildPropMap(t.props, ctx.dir)[j], ref).Fail?
    ensures TransformObject(ctx, val, t, ref, key, parent) == FieldOutcome(ctx, val, BuildPropMap(t.props, ctx.dir)[j], ref)
  {
    FieldsFromFirstFailure(ctx, val, t, BuildPropMap(t.props, ctx.dir), 0, [], ref, j);
  }

  /** With `additional` = false, once the declared fields pass, the first undeclared
      own key fails the call under its own name, with `ref` as the parent. */
  lemma ObjectUndeclaredKeyFailure(ctx: Context, val: Value, t: Typ, ref: string, key: string, parent: string, k: nat)
    requires ValidTypeMap(ctx.typeMap)
    requires t.ObjectT? && t.additional == FalseT && (val.Obj? || val.DateV?)
    requires forall i :: 0 <= i < |BuildPropMap(t.props, ctx.dir)| ==> FieldOutcome(ctx, val, BuildPropMap(t.props, ctx.dir)[i], ref).Ok?
    requires k < |Own(val)| && !HasName(BuildPropMap(t.props, ctx.dir), Own(val)[k].key)
    requires forall x :: 0 <= x < k ==> HasName(BuildPropMap(t.props, ctx.dir), Own(val)[x].key)
    ensures TransformObject(ctx, val, t, ref, key, parent) == Fail(InvalidValue(Descriptor(FalseT), Own(val)[k].value, Own(val)[k].key, ref))
  {
    var pm := BuildPropMap(t.props, ctx.dir);
    var fields := FieldsFrom(ctx, val, t, pm, 0, [], ref);
    FieldsFromOk(ctx, val, t, pm, 0, [], ref);
    ExtrasFromFirstFailure(ctx, val, t, pm, 0, fields.value, ref, k);
  }

  lemma {:induction false} FieldsFromOk(ctx: Context, val: Value, t: Typ, pm: seq<Binding>, i: nat, acc: seq<Member>, ref: string)
    requires ValidTypeMap(ctx.typeMap)
    requires (val.Obj? || val.DateV?) && t.ObjectT? && i <= |pm|
    requires forall k :: i <= k < |pm| ==> FieldOutcome(ctx, val, pm[k], ref).Ok?
    ensures FieldsFrom(ctx, val, t, pm, i, acc, ref).Ok?
    decreases |pm| - i
  {
    if i < |pm| {
      FieldsFromStep(ctx, val, t, pm, i, acc, ref);
      FieldsFromOk(ctx, val, t, pm, i + 1, Put(acc, pm[i].target, FieldOutcome(ctx, val, pm[i], ref).value), ref);
    }
  }

  /** On success with no undeclared key, the output is a fresh object holding one
      member per declared field, under its mapped name, in map order. */
  lemma ObjectOutput(ctx: Context, val: Value, t: Typ, ref: string, key: string, parent: string)
    requires ValidTypeMap(ctx.typeMap)
    requires t.ObjectT? && (val.Obj? || val.DateV?)
    requires forall i :: 0 <= i < |BuildPropMap(t.props, ctx.dir)| ==> FieldOutcome(ctx, val, BuildPropMap(t.props, ctx.dir)[i], ref).Ok?
    requires forall x :: 0 <= x < |Own(val)| ==> HasName(BuildPropMap(t.props, ctx.dir), Own(val)[x].key)
    requires DistinctTargets(BuildPropMap(t.props, ctx.dir))
    ensures TransformObject(ctx, val, t, ref, key, parent).Ok?
    ensures TransformObject(ctx, val, t, ref, key, parent).value.Obj?
    ensures |TransformObject(ctx, val, t, ref, key, parent).value.members| == |BuildPropMap(t.props, ctx.dir)|
    ensures forall i :: 0 <= i < |BuildPropMap(t.props, ctx.dir)| ==>
      TransformObject(ctx, val, t, ref, key, parent).value.members[i] ==
        Member(BuildPropMap(t.props, ctx.dir)[i].target, FieldOutcome(ctx, val, BuildPropMap(t.props, ctx.dir)[i], ref).value)
  {
    var pm := BuildPropMap(t.props, ctx.dir);
    var outs := seq(|pm|, i requires 0 <= i < |pm| => FieldOutcome(ctx, val, pm[i], ref).value);
    ObjectOutputOf(ctx, val, t, pm, outs, ref, key, parent);
    forall i | 0 <= i < |pm|
      ensures Appended(pm, outs, 0)[i] == Member(pm[i].target, FieldOutcome(ctx, val, pm[i], ref).value)
    {
      AppendedAt(pm, outs, 0, i);
    }
  }

  /** The same, with the fields' outputs named: the object holds them under their targets. */
  lemma ObjectOutputOf(ctx: Context, val: Value, t: Typ, pm: seq<Binding>, outs: seq<Value>, ref: string, key: string, parent: string)
    requires ValidTypeMap(ctx.typeMap)
    requires t.ObjectT? && (val.Obj? || val.DateV?) && pm == BuildPropMap(t.props, ctx.dir) && |outs| == |pm|
    requires forall i :: 0 <= i < |pm| ==> FieldOutcome(ctx, val, pm[i], ref) == Ok(outs[i])
    requires forall x :: 0 <= x < |Own(val)| ==> HasName(pm, Own(val)[x].key)
    requires DistinctTargets(pm)
    ensures TransformObject(ctx, val, t, ref, key, parent) == Ok(Obj(Appended(pm, outs, 0)))
  {
    FieldsFromAllOk(ctx, val, t, pm, outs, 0, [], ref);
    var fields := Appended(pm, outs, 0);
    assert [] + fields == fields;
    ExtrasFromAllDeclared(ctx, val, t, pm, 0, fields, ref);
  }

  /** The undeclared members of `own` from position `j` on, in order. */
  function UndeclaredFrom(pm: seq<Binding>, own: seq<Member>, j: nat): (ms: seq<Member>)
    requires j <= |own|
    ensures |ms| <= |own| - j
    decreases |own| - j
  {
    if j == |own| then []
    else (if HasName(pm, own[j].key) then [] else [own[j]]) + UndeclaredFrom(pm, own, j + 1)
  }

  /** Every undeclared member from position `j` on is among them. */
  lemma {:induction false} UndeclaredFromHolds(pm: seq<Binding>, own: seq<Member>, j: nat, x: nat)
    requires j <= x < |own| && !HasName(pm, own[x].key)
    ensures own[x] in UndeclaredFrom(pm, own, j)
    decreases x - j
  {
    if j < x {
      UndeclaredFromHolds(pm, own, j + 1, x);
    }
  }

  /** With `additional` = "any", the second `forEach` copies every undeclared own
      member through unchanged, after what the result already holds. */
  lemma {:induction false} ExtrasFromPassThrough(ctx: Context, val: Value, t: Typ, pm: seq<Binding>, j: nat, acc: seq<Member>, ref: string)
    requires ValidTypeMap(ctx.typeMap)
    requires (val.Obj? || val.DateV?) && t.ObjectT? && t.additional == AnyT && j <= |Own(val)|
    requires DistinctKeys(Own(val))
    requires forall x :: j <= x < |Own(val)| && !HasName(pm, Own(val)[x].key) ==> !HasKey(acc, Own(val)[x].key)
    ensures ExtrasFrom(ctx, val, t, pm, j, acc, ref) == Ok(acc + UndeclaredFrom(pm, Own(val), j))
    decreases |Own(val)| - j
  {
    var own := Own(val);
    if j < |own| {
      var m := own[j];
      if HasName(pm, m.key) {
        assert ExtrasFrom(ctx, val, t, pm, j, acc, ref) == ExtrasFrom(ctx, val, t, pm, j + 1, acc, ref);
        ExtrasFromPassThrough(ctx, val, t, pm, j + 1, acc, ref);
        assert UndeclaredFrom(pm, own, j) == [] + UndeclaredFrom(pm, own, j + 1) == UndeclaredFrom(pm, own, j + 1);
      } else {
        assert Put(acc, m.key, m.value) == acc + [m];
        forall x | j + 1 <= x < |own| && !HasName(pm, own[x].key)
          ensures !HasKey(acc + [m], own[x].key)
        {
          assert own[x].key != m.key;
          assert !HasKey(acc, own[x].key);
          forall y | 0 <= y < |acc| + 1
            ensures (acc + [m])[y].key != own[x].key
          {
            if y < |acc| {
              assert (acc + [m])[y] == acc[y];
            }
          }
        }
        ExtrasFromPassThrough(ctx, val, t, pm, j + 1, acc + [m], ref);
        Regroup(acc, m, UndeclaredFrom(pm, own, j + 1));
      }
    } else {
      assert acc + UndeclaredFrom(pm, own, j) == acc;
    }
  }

  /** With `additional` = "any" and every declared field succeeding, the output
      holds the declared fields under their mapped names, then every undeclared
      own member unchanged, in input order (keys that do not collide with a
      mapped name, as in any object `JSON.parse` produces for an agreeing table). */
  lemma ObjectPassThrough(ctx: Context, val: Value, t: Typ, pm: seq<Binding>, outs: seq<Value>, ref: string, key: string, parent: string)
    requires ValidTypeMap(ctx.typeMap)
    requires t.ObjectT? && t.additional == AnyT && (val.Obj? || val.DateV?)
    requires pm == BuildPropMap(t.props, ctx.dir) && |outs| == |pm|
    requires forall i :: 0 <= i < |pm| ==> FieldOutcome(ctx, val, pm[i], ref) == Ok(outs[i])
    requires DistinctTargets(pm) && DistinctKeys(Own(val))
    requires forall x, i :: 0 <= x < |Own(val)| && 0 <= i < |pm| && !HasName(pm, Own(val)[x].key) ==> Own(val)[x].key != pm[i].target
    ensures TransformObject(ctx, val, t, ref, key, parent) == Ok(Obj(Appended(pm, outs, 0) + UndeclaredFrom(pm, Own(val), 0)))
    ensures forall x :: 0 <= x < |Own(val)| && !HasName(pm, Own(val)[x].key) ==>
      Own(val)[x] in TransformObject(ctx, val, t, ref, key, parent).value.members
  {
    FieldsFromAllOk(ctx, val, t, pm, outs, 0, [], ref);
    var fields := Appended(pm, outs, 0);
    assert [] + fields == fields;
    FieldsMissUndeclared(pm, outs, Own(val));
    ExtrasFromPassThrough(ctx, val, t, pm, 0, fields, ref);
    UndeclaredAllHeld(pm, Own(val), fields);
  }

  /** The declared fields' output has none of the undeclared own keys. */
  lemma FieldsMissUndeclared(pm: seq<Binding>, outs: seq<Value>, own: seq<Member>)
    requires |outs| == |pm|
    requires forall x, i :: 0 <= x < |own| && 0 <= i < |pm| && !HasName(pm, own[x].key) ==> own[x].key != pm[i].target
    ensures forall x :: 0 <= x < |own| && !HasName(pm, own[x].key) ==> !HasKey(Appended(pm, outs, 0), own[x].key)
  {
    var fields := Appended(pm, outs, 0);
    forall x | 0 <= x < |own| && !HasName(pm, own[x].key)
      ensures !HasKey(fields, own[x].key)
    {
      forall y | 0 <= y < |fields|
        ensures fields[y].key != own[x].key
      {
        AppendedAt(pm, outs, 0, y);
      }
    }
  }

  /** Every undeclared own member is among those appended after the fields. */
  lemma UndeclaredAllHeld(pm: seq<Binding>, own: seq<Member>, fields: seq<Member>)
    ensures forall x :: 0 <= x < |own| && !HasName(pm, own[x].key) ==> own[x] in fields + UndeclaredFrom(pm, own, 0)
  {
    forall x | 0 <= x < |own| && !HasName(pm, own[x].key)
      ensures own[x] in fields + UndeclaredFrom(pm, own, 0)
    {
      UndeclaredFromHolds(pm, own, 0, x);
    }
  }

  /** For a descriptor whose json names and js names are each distinct, a successful
      cast with no undeclared key outputs exactly the js names, in declaration order. */
  lemma CastOutputKeys(ctx: Context, val: Value, t: Typ, ref: string, key: string, parent: string)
    requires ValidTypeMap(ctx.typeMap)
    requires ctx.dir == Cast && t.ObjectT? && (val.Obj? || val.DateV?)
    requires forall i, j :: 0 <= i < j < |t.props| ==> t.props[i].json != t.props[j].json && t.props[i].js != t.props[j].js
    requires forall i :: 0 <= i < |t.props| ==> FieldOutcome(ctx, val, BindingOf(t.props[i], Cast), ref).Ok?
    requires forall x :: 0 <= x < |Own(val)| ==> exists i :: 0 <= i < |t.props| && t.props[i].json == Own(val)[x].key
    ensures TransformObject(ctx, val, t, ref, key, parent).Ok?
    ensures TransformObject(ctx, val, t, ref, key, parent).value.Obj?
    ensures Keys(TransformObject(ctx, val, t, ref, key, parent).value.members) == seq(|t.props|, i requires 0 <= i < |t.props| => t.props[i].js)
  {
    CastMapOfDistinct(t.props);
    var pm := BuildPropMap(t.props, Cast);
    CastMapCovers(t.props, Own(val));
    forall i | 0 <= i < |pm|
      ensures FieldOutcome(ctx, val, pm[i], ref).Ok?
    {
      assert pm[i] == BindingOf(t.props[i], Cast);
    }
    ObjectOutput(ctx, val, t, ref, key, parent);
    var ms := TransformObject(ctx, val, t, ref, key, parent).value.members;
    TargetKeys(t.props, pm, ms);
  }

  /** Every key some field is read under is a name of the cast map. */
  lemma CastMapCovers(props: seq<Prop>, own: seq<Member>)
    requires forall i, j :: 0 <= i < j < |props| ==> props[i].json != props[j].json && props[i].js != props[j].js
    requires forall x :: 0 <= x < |own| ==> exists i :: 0 <= i < |props| && props[i].json == own[x].key
    ensures forall x :: 0 <= x < |own| ==> HasName(BuildPropMap(props, Cast), own[x].key)
  {
    CastMapOfDistinct(props);
    var pm := BuildPropMap(props, Cast);
    forall x | 0 <= x < |own|
      ensures HasName(pm, own[x].key)
    {
      var i :| 0 <= i < |props| && props[i].json == own[x].key;
      assert pm[i].name == own[x].key;
    }
  }

  /** Members keyed by the cast map's targets carry the js names in declaration order. */
  lemma TargetKeys(props: seq<Prop>, pm: seq<Binding>, ms: seq<Member>)
    requires |pm| == |props| == |ms|
    requires forall i :: 0 <= i < |props| ==> pm[i] == BindingOf(props[i], Cast)
    requires forall i :: 0 <= i < |pm| ==> ms[i].key == pm[i].target
    ensures Keys(ms) == seq(|props|, i requires 0 <= i < |props| => props[i].js)
  {
    forall i | 0 <= i < |props|
      ensures Keys(ms)[i] == props[i].js
    {
      assert ms[i].key == pm[i].target;
    }
  }

  /** With json names and js names each distinct, the cast map lists the fields
      in order and its targets are distinct. */
  lemma CastMapOfDistinct(props: seq<Prop>)
    requires forall i, j :: 0 <= i < j < |props| ==> props[i].json != props[j].json && props[i].js != props[j].js
    ensures |BuildPropMap(props, Cast)| == |props|
    ensures forall i :: 0 <= i < |props| ==> BuildPropMap(props, Cast)[i] == BindingOf(props[i], Cast)
    ensures DistinctTargets(BuildPropMap(props, Cast))
  {
    BuildPropMapOfDistinct(props, Cast);
  }
}
