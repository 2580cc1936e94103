/** The parts of `transform` that work step by step: the reference `while`
    loop, the `try`/`catch` loop over a union's members, and the two `forEach`
    loops that fill a fresh `result` object through a descriptor's memoised
    name map. Each is proved to compute what the engine's functions define. */
module TransformSteps {
  import opened Wrappers
  import opened JsonValues
  import opened Descriptors
  import opened PropMaps
  import opened Messages
  import opened Transformer

  /** `while (typeof typ === "object" && typ.ref !== undefined)`: follow
      references, keeping the last name followed. */
  method ResolveRefs(typeMap: TypeMap, typ: Typ) returns (t: Typ, ref: string)
    requires ValidTypeMap(typeMap)
    ensures (t, ref) == Resolve(typeMap, typ)
    ensures !t.RefT?
  {
    t := typ;
    ref := "";
    while t.RefT?
      invariant (t, ref) == (typ, "") || (t, ref) == Resolve(typeMap, typ)
      invariant t.RefT? ==> t == typ && ref == ""
      decreases if t.RefT? then 1 else 0
    {
      ref := t.name;
      t := if t.name in typeMap then typeMap[t.name] else UndefinedMarker;
    }
  }

  /** `transformUnion`: try each member in order; the first that does not
      throw gives the result, and when all throw, fail naming the whole list. */
  method TransformUnion(ctx: Context, val: Value, ms: seq<Typ>, key: string, parent: string) returns (r: Outcome)
    requires ValidTypeMap(ctx.typeMap)
    ensures r == Transform(ctx, val, UnionT(ms), key, parent)
  {
    var t := UnionT(ms);
    var i := 0;
    while i < |ms|
      invariant 0 <= i <= |ms|
      invariant UnionFrom(ctx, val, t, 0) == UnionFrom(ctx, val, t, i)
    {
      var attempt := Transform(ctx, val, ms[i], "", "");
      if attempt.Ok? {
        return attempt;
      }
      i := i + 1;
    }
    return Fail(InvalidValue(Members(ms), val, key, parent));
  }

  /** `transformObject(getProps(typ), typ.additional, val)` on descriptor `d`:
      declared fields first, read by source name and stored under their mapped
      name, then every undeclared own key against `additional`. The map is
      asked for first, whatever the value, so the memo of that direction is
      filled even when the value is then rejected; the other memo is untouched. */
  method TransformObjectWith(ctx: Context, d: ObjectDescriptor, val: Value, ref: string, key: string, parent: string)
    returns (r: Outcome)
    requires ValidTypeMap(ctx.typeMap)
    requires d.Valid()
    modifies d
    ensures d.Valid()
    ensures r == TransformObject(ctx, val, ObjectT(d.props, d.additional), ref, key, parent)
    ensures ctx.dir == Cast ==> d.jsonToJS == Some(BuildPropMap(d.props, Cast)) && d.jsToJSON == old(d.jsToJSON)
    ensures ctx.dir == Uncast ==> d.jsToJSON == Some(BuildPropMap(d.props, Uncast)) && d.jsonToJS == old(d.jsonToJS)
  {
    var t := ObjectT(d.props, d.additional);
    // `getProps(typ)` is an argument of the call, so it runs before the object check.
    var pm := d.GetProps(ctx.dir);
    if !(val.Obj? || val.DateV?) {
      return Fail(InvalidValue(Literal(if ref == "" then "object" else ref), val, key, parent));
    }
    var declared := DeclaredPass(ctx, t, pm, val, ref);
    if declared.Fail? {
      return Fail(declared.error);
    }
    var all := ExtrasPass(ctx, t, pm, val, declared.value, ref);
    if all.Fail? {
      return Fail(all.error);
    }
    return Ok(Obj(all.value));
  }

  /** The first `forEach` of `transformObject`: each declared field, read by its
      source-side name, written into a fresh result under its mapped name. */
  method DeclaredPass(ctx: Context, t: Typ, pm: seq<Binding>, val: Value, ref: string)
    returns (r: Result<seq<Member>, Failure>)
    requires ValidTypeMap(ctx.typeMap)
    requires (val.Obj? || val.DateV?) && t.ObjectT?
    ensures r == FieldsFrom(ctx, val, t, pm, 0, [], ref)
  {
    var result: seq<Member> := [];
    var i := 0;
    while i < |pm|
      invariant 0 <= i <= |pm|
      invariant FieldsFrom(ctx, val, t, pm, 0, [], ref) == FieldsFrom(ctx, val, t, pm, i, result, ref)
    {
      var b := pm[i];
      var v := Transform(ctx, ValueAt(val, b.name), b.typ, b.name, ref);
      if v.Fail? {
        return Fail(v.error);
      }
      result := Put(result, b.target, v.value);
      i := i + 1;
    }
    return Ok(result);
  }

  /** The second `forEach` of `transformObject`: every own key the map does not
      name is checked against `additional` and written under its own name. */
  method ExtrasPass(ctx: Context, t: Typ, pm: seq<Binding>, val: Value, declared: seq<Member>, ref: string)
    returns (r: Result<seq<Member>, Failure>)
    requires ValidTypeMap(ctx.typeMap)
    requires (val.Obj? || val.DateV?) && t.ObjectT?
    ensures r == ExtrasFrom(ctx, val, t, pm, 0, declared, ref)
  {
    var result := declared;
    var own := Own(val);
    var j := 0;
    while j < |own|
      invariant 0 <= j <= |own|
      invariant ExtrasFrom(ctx, val, t, pm, 0, declared, ref) == ExtrasFrom(ctx, val, t, pm, j, result, ref)
    {
      var m := own[j];
      if !HasName(pm, m.key) {
        var v := Transform(ctx, m.value, t.additional, m.key, ref);
        if v.Fail? {
          return Fail(v.error);
        }
        result := Put(result, m.key, v.value);
      }
      j := j + 1;
    }
    return Ok(result);
  }
}
