/** The generic engine: `transform` and its inner helpers, and the two entry
    points `cast` and `uncast`, as functions. Every call either produces a
    freshly built value (Ok) or stops at the first mismatch (Fail), carrying the
    arguments `invalidValue` was called with. */
module Transformer {
  import opened Wrappers
  import opened JsonValues
  import opened Descriptors
  import opened PropMaps
  import opened Messages

  /** What a call depends on besides the value and the descriptor: the table
      references are resolved through, the direction, and the host's date
      parser (`new Date(val)`, None when `isNaN(d.valueOf())`). */
  datatype Context = Context(typeMap: TypeMap, dir: Dir, parseDate: Value -> Option<int>)

  type Outcome = Result<Value, Failure>

  /** 0 for `undefined` (what a missing key reads as), 1 for every other value. */
  function Present(v: Value): nat {
    if v.Undefined? then 0 else 1
  }

  /** The reference loop of `transform`: follow `r(name)` through the table and
      remember the name; a name the table lacks leaves `undefined` behind. */
  function Resolve(m: TypeMap, typ: Typ): (r: (Typ, string))
    requires ValidTypeMap(m)
    ensures typ.RefT? ==> r.1 == typ.name && (r.0.ObjectT? || r.0.EnumT? || r.0 == UndefinedMarker)
    ensures typ.RefT? && typ.name in m ==> r.0 == m[typ.name]
    ensures typ.RefT? && typ.name !in m ==> r.0 == UndefinedMarker
    ensures !typ.RefT? ==> r == (typ, "")
  {
    if typ.RefT? then
      (if typ.name in m then m[typ.name] else UndefinedMarker, typ.name)
    else (typ, "")
  }

  /** `transformPrimitive`: the kinds must agree under `typeof`. */
  function TransformPrimitive(t: Typ, val: Value, key: string, parent: string): Outcome
    requires t.PrimT?
  {
    if KindTypeOf(t.kind) == TypeOf(val) then Ok(val)
    else Fail(InvalidValue(Descriptor(t), val, key, parent))
  }

  /** `transformEnum`: strict membership in the listed strings. */
  function TransformEnum(cases: seq<string>, val: Value, key: string, parent: string): Outcome {
    if val.Str? && val.s in cases then Ok(val)
    else Fail(InvalidValue(Literals(cases), val, key, parent))
  }

  /** `transformDate`, reached only for a value that is not a number. */
  function TransformDate(ctx: Context, val: Value, key: string, parent: string): Outcome {
    if val.Null? then Ok(Null)
    else match ctx.parseDate(val)
      case None => Fail(InvalidValue(Literal("Date"), val, key, parent))
      case Some(time) => Ok(DateV(time))
  }

  /** `transform(val, typ, getProps, key, parent)`. */
  function Transform(ctx: Context, val: Value, typ: Typ, key: string, parent: string): Outcome
    requires ValidTypeMap(ctx.typeMap)
    decreases Present(val), val, Flag(typ), typ, 2
  {
    if typ.AnyT? then Ok(val)
    else if typ.NullT? then
      (if val.Null? then Ok(val) else Fail(InvalidValue(Descriptor(NullT), val, key, parent)))
    else if typ.FalseT? then Fail(InvalidValue(Descriptor(FalseT), val, key, parent))
    else
      var (t, ref) := Resolve(ctx.typeMap, typ);
      if t.EnumT? then TransformEnum(t.cases, val, key, parent)
      else if t.UnionT? then
        (match UnionFrom(ctx, val, t, 0)
         case Some(v) => Ok(v)
         case None => Fail(InvalidValue(Members(t.members), val, key, parent)))
      else if t.ArrayT? then
        (if !val.Arr? then Fail(InvalidValue(Literal("array"), val, key, parent))
         else match ElemsFrom(ctx, val, t, 0)
           case Ok(rs) => Ok(Arr(rs))
           case Fail(e) => Fail(e))
      else if t.ObjectT? then TransformObject(ctx, val, t, ref, key, parent)
      // A number is never handed to the date parser: it meets `typeof Date`, "function".
      else if t.DateT? then
        (if val.Num? then Fail(InvalidValue(Descriptor(DateT), val, key, parent))
         else TransformDate(ctx, val, key, parent))
      else TransformPrimitive(t, val, key, parent)
  }

  /** The loop of `transformUnion` from member `i` on: the first member that
      does not throw gives the result; a member's own failure is discarded. */
  function UnionFrom(ctx: Context, val: Value, t: Typ, i: nat): Option<Value>
    requires ValidTypeMap(ctx.typeMap)
    requires t.UnionT? && i <= |t.members|
    decreases Present(val), val, 1, t, 0, |t.members| - i
  {
    if i == |t.members| then None
    else match Transform(ctx, val, t.members[i], "", "")
      case Ok(v) => Some(v)
      case Fail(_) => UnionFrom(ctx, val, t, i + 1)
  }

  /** `val.map(el => transform(el, items, getProps))` from element `i` on. */
  function ElemsFrom(ctx: Context, val: Value, t: Typ, i: nat): Result<seq<Value>, Failure>
    requires ValidTypeMap(ctx.typeMap)
    requires val.Arr? && t.ArrayT? && i <= |val.elems|
    decreases Present(val), val, 0, t, 0, |val.elems| - i
  {
    if i == |val.elems| then Ok([])
    else match Transform(ctx, val.elems[i], t.items, "", "")
      case Fail(e) => Fail(e)
      case Ok(v) =>
        match ElemsFrom(ctx, val, t, i + 1)
        case Fail(e) => Fail(e)
        case Ok(rest) => Ok([v] + rest)
  }

  /** `transformObject(getProps(typ), typ.additional, val)`; `ref` is the last
      reference name resolved on the way here ("" when none). */
  function TransformObject(ctx: Context, val: Value, t: Typ, ref: string, key: string, parent: string): Outcome
    requires ValidTypeMap(ctx.typeMap)
    requires t.ObjectT?
    decreases Present(val), val, 0, t, 1
  {
    if !(val.Obj? || val.DateV?) then
      Fail(InvalidValue(Literal(if ref == "" then "object" else ref), val, key, parent))
    else
      var pm := BuildPropMap(t.props, ctx.dir);
      match FieldsFrom(ctx, val, t, pm, 0, [], ref)
      case Fail(e) => Fail(e)
      case Ok(declared) =>
        match ExtrasFrom(ctx, val, t, pm, 0, declared, ref)
        case Fail(e) => Fail(e)
        case Ok(all) => Ok(Obj(all))
  }

  /** The first `forEach` of `transformObject`, from entry `i` of the map on:
      read each field by its source-side name, write it under its mapped name. */
  function FieldsFrom(ctx: Context, val: Value, t: Typ, pm: seq<Binding>, i: nat, acc: seq<Member>, ref: string)
    : Result<seq<Member>, Failure>
    requires ValidTypeMap(ctx.typeMap)
    requires (val.Obj? || val.DateV?) && t.ObjectT? && i <= |pm|
    decreases Present(val), val, 0, t, 0, |pm| - i
  {
    if i == |pm| then Ok(acc)
    else
      var b := pm[i];
      match Transform(ctx, ValueAt(val, b.name), b.typ, b.name, ref)
      case Fail(e) => Fail(e)
      case Ok(r) => FieldsFrom(ctx, val, t, pm, i + 1, Put(acc, b.target, r), ref)
  }

  /** The second `forEach` of `transformObject`, from own property `j` on: every
      key the map does not name is checked against `additional` and kept under its own name. */
  function ExtrasFrom(ctx: Context, val: Value, t: Typ, pm: seq<Binding>, j: nat, acc: seq<Member>, ref: string)
    : Result<seq<Member>, Failure>
    requires ValidTypeMap(ctx.typeMap)
    requires (val.Obj? || val.DateV?) && t.ObjectT? && j <= |Own(val)|
    decreases Present(val), val, 0, t, 0, |Own(val)| - j
  {
    if j == |Own(val)| then Ok(acc)
    else
      var m := Own(val)[j];
      if HasName(pm, m.key) then ExtrasFrom(ctx, val, t, pm, j + 1, acc, ref)
      else match Transform(ctx, m.value, t.additional, m.key, ref)
        case Fail(e) => Fail(e)
        case Ok(r) => ExtrasFrom(ctx, val, t, pm, j + 1, Put(acc, m.key, r), ref)
  }

  /** `cast(val, typ)`: json names in, js names out. */
  function CastValue(typeMap: TypeMap, parseDate: Value -> Option<int>, val: Value, typ: Typ): Outcome
    requires ValidTypeMap(typeMap)
  {
    Transform(Context(typeMap, Cast, parseDate), val, typ, "", "")
  }

  /** `uncast(val, typ)`: js names in, json names out. */
  function UncastValue(typeMap: TypeMap, parseDate: Value -> Option<int>, val: Value, typ: Typ): Outcome
    requires ValidTypeMap(typeMap)
  {
    Transform(Context(typeMap, Uncast, parseDate), val, typ, "", "")
  }
}
