/** A declarative reading of which values a descriptor accepts, written
    independently of the engine: a union accepts what SOME member accepts, an
    array what ALL its elements do, an object when every declared field and
    every undeclared key is acceptable. The engine succeeds exactly on these. */
module Acceptance {
  import opened Wrappers
  import opened JsonValues
  import opened Descriptors
  import opened PropMaps
  import opened Transformer

  predicate Accepts(ctx: Context, val: Value, typ: Typ)
    requires ValidTypeMap(ctx.typeMap)
    decreases Present(val), val, Flag(typ), typ, 1
  {
    if typ.AnyT? then true
    else if typ.NullT? then val.Null?
    else if typ.FalseT? then false
    else
      var t := Resolve(ctx.typeMap, typ).0;
      if t.EnumT? then val.Str? && val.s in t.cases
      else if t.UnionT? then exists i :: 0 <= i < |t.members| && Accepts(ctx, val, t.members[i])
      else if t.ArrayT? then val.Arr? && forall i :: 0 <= i < |val.elems| ==> Accepts(ctx, val.elems[i], t.items)
      else if t.ObjectT? then
        && (val.Obj? || val.DateV?)
        && FieldsAcceptable(ctx, val, t, BuildPropMap(t.props, ctx.dir), 0)
        && ExtrasAcceptable(ctx, val, t, BuildPropMap(t.props, ctx.dir), 0)
      else if t.DateT? then !val.Num? && (val.Null? || ctx.parseDate(val).Some?)
      else KindTypeOf(t.kind) == TypeOf(val)
  }

  /** Every declared field from entry `i` on, read by its source-side name, is acceptable. */
  predicate FieldsAcceptable(ctx: Context, val: Value, t: Typ, pm: seq<Binding>, i: nat)
    requires ValidTypeMap(ctx.typeMap)
    requires (val.Obj? || val.DateV?) && t.ObjectT?
    decreases Present(val), val, 0, t, 0
  {
    forall j :: i <= j < |pm| ==> Accepts(ctx, ValueAt(val, pm[j].name), pm[j].typ)
  }

  /** Every own key from position `j` on that the map does not name is acceptable to `additional`. */
  predicate ExtrasAcceptable(ctx: Context, val: Value, t: Typ, pm: seq<Binding>, j: nat)
    requires ValidTypeMap(ctx.typeMap)
    requires (val.Obj? || val.DateV?) && t.ObjectT?
    decreases Present(val), val, 0, t, 0
  {
    forall k :: j <= k < |Own(val)| && !HasName(pm, Own(val)[k].key) ==> Accepts(ctx, Own(val)[k].value, t.additional)
  }

  /** The engine succeeds exactly on the values the declarative reading accepts. */
  lemma {:induction false} TransformOkIffAccepts(ctx: Context, val: Value, typ: Typ, key: string, parent: string)
    requires ValidTypeMap(ctx.typeMap)
    ensures Transform(ctx, val, typ, key, parent).Ok? <==> Accepts(ctx, val, typ)
    decreases Present(val), val, Flag(typ), typ, 2
  {
    if !(typ.AnyT? || typ.NullT? || typ.FalseT?) {
      var (t, ref) := Resolve(ctx.typeMap, typ);
      if t.UnionT? {
        UnionFromOkIff(ctx, val, t, 0);
      } else if t.ArrayT? {
        if val.Arr? {
          ElemsFromOkIff(ctx, val, t, 0);
        }
      } else if t.ObjectT? {
        ObjectOkIff(ctx, val, t, ref, key, parent);
      }
    }
  }

  lemma {:induction false} UnionFromOkIff(ctx: Context, val: Value, t: Typ, i: nat)
    requires ValidTypeMap(ctx.typeMap)
    requires t.UnionT? && i <= |t.members|
    ensures UnionFrom(ctx, val, t, i).Some? <==> exists j :: i <= j < |t.members| && Accepts(ctx, val, t.members[j])
    decreases Present(val), val, 1, t, 0, |t.members| - i
  {
    if i < |t.members| {
      TransformOkIffAccepts(ctx, val, t.members[i], "", "");
      UnionFromOkIff(ctx, val, t, i + 1);
    }
  }

  lemma {:induction false} ElemsFromOkIff(ctx: Context, val: Value, t: Typ, i: nat)
    requires ValidTypeMap(ctx.typeMap)
    requires val.Arr? && t.ArrayT? && i <= |val.elems|
    ensures ElemsFrom(ctx, val, t, i).Ok? <==> forall j :: i <= j < |val.elems| ==> Accepts(ctx, val.elems[j], t.items)
    decreases Present(val), val, 0, t, 0, |val.elems| - i
  {
    if i < |val.elems| {
      TransformOkIffAccepts(ctx, val.elems[i], t.items, "", "");
      ElemsFromOkIff(ctx, val, t, i + 1);
    }
  }

  lemma {:induction false} ObjectOkIff(ctx: Context, val: Value, t: Typ, ref: string, key: string, parent: string)
    requires ValidTypeMap(ctx.typeMap)
    requires t.ObjectT?
    ensures TransformObject(ctx, val, t, ref, key, parent).Ok? <==>
      && (val.Obj? || val.DateV?)
      && FieldsAcceptable(ctx, val, t, BuildPropMap(t.props, ctx.dir), 0)
      && ExtrasAcceptable(ctx, val, t, BuildPropMap(t.props, ctx.dir), 0)
    decreases Present(val), val, 0, t, 1
  {
    if val.Obj? || val.DateV? {
      var pm := BuildPropMap(t.props, ctx.dir);
      FieldsFromOkIff(ctx, val, t, pm, 0, [], ref);
      var fields := FieldsFrom(ctx, val, t, pm, 0, [], ref);
      if fields.Ok? {
        ExtrasFromOkIff(ctx, val, t, pm, 0, fields.value, ref);
      }
    }
  }

  lemma {:induction false} FieldsFromOkIff(ctx: Context, val: Value, t: Typ, pm: seq<Binding>, i: nat, acc: seq<Member>, ref: string)
    requires ValidTypeMap(ctx.typeMap)
    requires (val.Obj? || val.DateV?) && t.ObjectT? && i <= |pm|
    ensures FieldsFrom(ctx, val, t, pm, i, acc, ref).Ok? <==> FieldsAcceptable(ctx, val, t, pm, i)
    decreases Present(val), val, 0, t, 0, |pm| - i
  {
    if i < |pm| {
      var b := pm[i];
      var v := ValueAt(val, b.name);
      TransformOkIffAccepts(ctx, v, b.typ, b.name, ref);
      var r := Transform(ctx, v, b.typ, b.name, ref);
      FieldsAcceptableStep(ctx, val, t, pm, i);
      if r.Ok? {
        FieldsFromOkIff(ctx, val, t, pm, i + 1, Put(acc, b.target, r.value), ref);
      }
    }
  }

  lemma FieldsAcceptableStep(ctx: Context, val: Value, t: Typ, pm: seq<Binding>, i: nat)
    requires ValidTypeMap(ctx.typeMap)
    requires (val.Obj? || val.DateV?) && t.ObjectT? && i < |pm|
    ensures FieldsAcceptable(ctx, val, t, pm, i) <==>
      Accepts(ctx, ValueAt(val, pm[i].name), pm[i].typ) && FieldsAcceptable(ctx, val, t, pm, i + 1)
  {
  }

  lemma {:induction false} ExtrasFromOkIff(ctx: Context, val: Value, t: Typ, pm: seq<Binding>, j: nat, acc: seq<Member>, ref: string)
    requires ValidTypeMap(ctx.typeMap)
    requires (val.Obj? || val.DateV?) && t.ObjectT? && j <= |Own(val)|
    ensures ExtrasFrom(ctx, val, t, pm, j, acc, ref).Ok? <==> ExtrasAcceptable(ctx, val, t, pm, j)
    decreases Present(val), val, 0, t, 0, |Own(val)| - j
  {
    if j < |Own(val)| {
      var m := Own(val)[j];
      if HasName(pm, m.key) {
        ExtrasFromOkIff(ctx, val, t, pm, j + 1, acc, ref);
      } else {
        TransformOkIffAccepts(ctx, m.value, t.additional, m.key, ref);
        var r := Transform(ctx, m.value, t.additional, m.key, ref);
        if r.Ok? {
          ExtrasFromOkIff(ctx, val, t, pm, j + 1, Put(acc, m.key, r.value), ref);
        }
      }
    }
  }

  /** With `additional` = false, an object holding any key the map does not
      name is rejected, whatever its declared fields hold. */
  lemma UndeclaredKeyRejected(ctx: Context, val: Value, t: Typ, ref: string, key: string, parent: string, k: nat)
    requires ValidTypeMap(ctx.typeMap)
    requires t.ObjectT? && t.additional == FalseT && (val.Obj? || val.DateV?)
    requires k < |Own(val)| && !HasName(BuildPropMap(t.props, ctx.dir), Own(val)[k].key)
    ensures TransformObject(ctx, val, t, ref, key, parent).Fail?
  {
    ObjectOkIff(ctx, val, t, ref, key, parent);
    assert !Accepts(ctx, Own(val)[k].value, t.additional);
  }

  /** A successful object transform met an object, read every declared field
      successfully and, with `additional` = false, met no undeclared key. */
  lemma ObjectOkParts(ctx: Context, val: Value, t: Typ, ref: string, key: string, parent: string)
    requires ValidTypeMap(ctx.typeMap)
    requires t.ObjectT? && TransformObject(ctx, val, t, ref, key, parent).Ok?
    ensures val.Obj? || val.DateV?
    ensures forall i :: 0 <= i < |BuildPropMap(t.props, ctx.dir)| ==>
      var b := BuildPropMap(t.props, ctx.dir)[i];
      Transform(ctx, ValueAt(val, b.name), b.typ, b.name, ref).Ok?
    ensures t.additional == FalseT ==>
      forall k :: 0 <= k < |Own(val)| ==> HasName(BuildPropMap(t.props, ctx.dir), Own(val)[k].key)
  {
    ObjectOkIff(ctx, val, t, ref, key, parent);
    var pm := BuildPropMap(t.props, ctx.dir);
    forall i | 0 <= i < |pm|
      ensures Transform(ctx, ValueAt(val, pm[i].name), pm[i].typ, pm[i].name, ref).Ok?
    {
      TransformOkIffAccepts(ctx, ValueAt(val, pm[i].name), pm[i].typ, pm[i].name, ref);
    }
    if t.additional == FalseT {
      forall k | 0 <= k < |Own(val)|
        ensures HasName(pm, Own(val)[k].key)
      {
        assert !HasName(pm, Own(val)[k].key) ==> Accepts(ctx, Own(val)[k].value, t.additional);
        assert !Accepts(ctx, Own(val)[k].value, FalseT);
      }
    }
  }
}
