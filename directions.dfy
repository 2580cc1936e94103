/** `cast` and `uncast` differ only in which name map an object descriptor is
    read through. Where every field declares the same json and js name, as in
    all three generated tables, the two directions are the same function. */
module Directions {
  import opened Wrappers
  import opened JsonValues
  import opened Descriptors
  import opened PropMaps
  import opened Transformer

  /** Changing the direction changes nothing when every reachable field's names agree. */
  lemma {:induction false} TransformBothWays(ctx: Context, val: Value, typ: Typ, key: string, parent: string)
    requires ValidTypeMap(ctx.typeMap) && TypeMapNamesAgree(ctx.typeMap) && NamesAgree(typ)
    ensures Transform(ctx.(dir := Cast), val, typ, key, parent) == Transform(ctx.(dir := Uncast), val, typ, key, parent)
    decreases Present(val), val, Flag(typ), typ, 2
  {
    if !(typ.AnyT? || typ.NullT? || typ.FalseT?) {
      var (t, ref) := Resolve(ctx.typeMap, typ);
      assert NamesAgree(t);
      if t.UnionT? {
        UnionFromBothWays(ctx, val, t, 0);
      } else if t.ArrayT? {
        if val.Arr? {
          ElemsFromBothWays(ctx, val, t, 0);
        }
      } else if t.ObjectT? {
        ObjectBothWays(ctx, val, t, ref, key, parent);
      }
    }
  }

  lemma {:induction false} UnionFromBothWays(ctx: Context, val: Value, t: Typ, i: nat)
    requires ValidTypeMap(ctx.typeMap) && TypeMapNamesAgree(ctx.typeMap)
    requires t.UnionT? && i <= |t.members| && NamesAgree(t)
    ensures UnionFrom(ctx.(dir := Cast), val, t, i) == UnionFrom(ctx.(dir := Uncast), val, t, i)
    decreases Present(val), val, 1, t, 0, |t.members| - i
  {
    if i < |t.members| {
      MembersAgreeFromAt(t, 0, i);
      TransformBothWays(ctx, val, t.members[i], "", "");
      UnionFromBothWays(ctx, val, t, i + 1);
    }
  }

  lemma {:induction false} ElemsFromBothWays(ctx: Context, val: Value, t: Typ, i: nat)
    requires ValidTypeMap(ctx.typeMap) && TypeMapNamesAgree(ctx.typeMap)
    requires val.Arr? && t.ArrayT? && i <= |val.elems| && NamesAgree(t)
    ensures ElemsFrom(ctx.(dir := Cast), val, t, i) == ElemsFrom(ctx.(dir := Uncast), val, t, i)
    decreases Present(val), val, 0, t, 0, |val.elems| - i
  {
    if i < |val.elems| {
      TransformBothWays(ctx, val.elems[i], t.items, "", "");
      ElemsFromBothWays(ctx, val, t, i + 1);
    }
  }

  lemma {:induction false} ObjectBothWays(ctx: Context, val: Value, t: Typ, ref: string, key: string, parent: string)
    requires ValidTypeMap(ctx.typeMap) && TypeMapNamesAgree(ctx.typeMap)
    requires t.ObjectT? && NamesAgree(t)
    ensures TransformObject(ctx.(dir := Cast), val, t, ref, key, parent) == TransformObject(ctx.(dir := Uncast), val, t, ref, key, parent)
    decreases Present(val), val, 0, t, 1
  {
    if val.Obj? || val.DateV? {
      forall i | 0 <= i < |t.props|
        ensures t.props[i].json == t.props[i].js
      {
        PropsAgreeFromAt(t, 0, i);
      }
      AgreeingNamesSameMap(t.props);
      var pm := BuildPropMap(t.props, Cast);
      BuildPropMapEntries(t.props, Cast);
      forall k | 0 <= k < |pm|
        ensures NamesAgree(pm[k].typ)
      {
        assert pm[k] in pm;
        var x :| 0 <= x < |t.props| && pm[k] == BindingOf(t.props[x], Cast);
        PropsAgreeFromAt(t, 0, x);
      }
      FieldsFromBothWays(ctx, val, t, pm, 0, [], ref);
      var fields := FieldsFrom(ctx.(dir := Cast), val, t, pm, 0, [], ref);
      if fields.Ok? {
        ExtrasFromBothWays(ctx, val, t, pm, 0, fields.value, ref);
      }
    }
  }

  lemma {:induction false} FieldsFromBothWays(ctx: Context, val: Value, t: Typ, pm: seq<Binding>, i: nat, acc: seq<Member>, ref: string)
    requires ValidTypeMap(ctx.typeMap) && TypeMapNamesAgree(ctx.typeMap)
    requires (val.Obj? || val.DateV?) && t.ObjectT? && i <= |pm|
    requires forall k :: 0 <= k < |pm| ==> NamesAgree(pm[k].typ)
    ensures FieldsFrom(ctx.(dir := Cast), val, t, pm, i, acc, ref) == FieldsFrom(ctx.(dir := Uncast), val, t, pm, i, acc, ref)
    decreases Present(val), val, 0, t, 0, |pm| - i
  {
    if i < |pm| {
      var b := pm[i];
      TransformBothWays(ctx, ValueAt(val, b.name), b.typ, b.name, ref);
      var r := Transform(ctx.(dir := Cast), ValueAt(val, b.name), b.typ, b.name, ref);
      if r.Ok? {
        FieldsFromBothWays(ctx, val, t, pm, i + 1, Put(acc, b.target, r.value), ref);
      }
    }
  }

  lemma {:induction false} ExtrasFromBothWays(ctx: Context, val: Value, t: Typ, pm: seq<Binding>, j: nat, acc: seq<Member>, ref: string)
    requires ValidTypeMap(ctx.typeMap) && TypeMapNamesAgree(ctx.typeMap)
    requires (val.Obj? || val.DateV?) && t.ObjectT? && j <= |Own(val)| && NamesAgree(t)
    ensures ExtrasFrom(ctx.(dir := Cast), val, t, pm, j, acc, ref) == ExtrasFrom(ctx.(dir := Uncast), val, t, pm, j, acc, ref)
    decreases Present(val), val, 0, t, 0, |Own(val)| - j
  {
    if j < |Own(val)| {
      var m := Own(val)[j];
      if HasName(pm, m.key) {
        ExtrasFromBothWays(ctx, val, t, pm, j + 1, acc, ref);
      } else {
        TransformBothWays(ctx, m.value, t.additional, m.key, ref);
        var r := Transform(ctx.(dir := Cast), m.value, t.additional, m.key, ref);
        if r.Ok? {
          ExtrasFromBothWays(ctx, val, t, pm, j + 1, Put(acc, m.key, r.value), ref);
        }
      }
    }
  }

  /** `cast` and `uncast` agree on every value for such a table and descriptor. */
  lemma CastEqualsUncast(typeMap: TypeMap, parseDate: Value -> Option<int>, val: Value, typ: Typ)
    requires ValidTypeMap(typeMap) && TypeMapNamesAgree(typeMap) && NamesAgree(typ)
    ensures CastValue(typeMap, parseDate, val, typ) == UncastValue(typeMap, parseDate, val, typ)
  {
    TransformBothWays(Context(typeMap, Cast, parseDate), val, typ, "", "");
  }
}
