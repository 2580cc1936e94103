/** The declarative descriptor tree that `transform` walks, and the table
    (`typeMap`) that references are resolved through. */
module Descriptors {

  /** The primitive markers, told apart by JavaScript's `typeof`:
      `""` (string), `0` and `3.14` (number), `true` (boolean), `undefined`. */
  datatype Kind = StringKind | NumberKind | BooleanKind | UndefinedKind

  /** `typeof` of a primitive marker. */
  function KindTypeOf(k: Kind): string {
    match k
    case StringKind => "string"
    case NumberKind => "number"
    case BooleanKind => "boolean"
    case UndefinedKind => "undefined"
  }

  /** A descriptor, one constructor per shape the generated code builds:
      `"any"`, `null`, `false`, `r(name)`, an enum array of strings,
      `u(...)`, `a(items)`, `o(props, additional)`, `Date`, and the primitive markers. */
  datatype Typ =
    | AnyT
    | NullT
    | FalseT
    | RefT(name: string)
    | EnumT(cases: seq<string>)
    | UnionT(members: seq<Typ>)
    | ArrayT(items: Typ)
    | ObjectT(props: seq<Prop>, additional: Typ)
    | DateT
    | PrimT(kind: Kind)

  /** One declared field `{ json, js, typ }`. */
  datatype Prop = Prop(json: string, js: string, typ: Typ)

  const StringMarker := PrimT(StringKind)
  const NumberMarker := PrimT(NumberKind)
  const BooleanMarker := PrimT(BooleanKind)
  const UndefinedMarker := PrimT(UndefinedKind)

  type TypeMap = map<string, Typ>

  /** Every entry of the table is an object or an enum descriptor; this is what
      the generated tables contain, and it bounds the reference loop to one step. */
  predicate ValidTypeMap(m: TypeMap) {
    forall n :: n in m ==> m[n].ObjectT? || m[n].EnumT?
  }

  /** 1 for the descriptors that the walk may revisit on the same value
      (a reference and a union), 0 for all others. */
  function Flag(t: Typ): nat {
    if t.RefT? || t.UnionT? then 1 else 0
  }

  /** Every object descriptor inside `t` declares fields whose json and js names coincide. */
  predicate NamesAgree(t: Typ)
    decreases t, 1
  {
    match t
    case UnionT(ms) => MembersAgreeFrom(t, 0)
    case ArrayT(items) => NamesAgree(items)
    case ObjectT(props, additional) => PropsAgreeFrom(t, 0) && NamesAgree(additional)
    case _ => true
  }

  predicate MembersAgreeFrom(t: Typ, i: nat)
    requires t.UnionT? && i <= |t.members|
    decreases t, 0, |t.members| - i
  {
    i == |t.members| || (NamesAgree(t.members[i]) && MembersAgreeFrom(t, i + 1))
  }

  predicate PropsAgreeFrom(t: Typ, i: nat)
    requires t.ObjectT? && i <= |t.props|
    decreases t, 0, |t.props| - i
  {
    i == |t.props| ||
    (t.props[i].json == t.props[i].js && NamesAgree(t.props[i].typ) && PropsAgreeFrom(t, i + 1))
  }

  lemma {:induction false} PropsAgreeFromAt(t: Typ, i: nat, j: nat)
    requires t.ObjectT? && i <= j < |t.props| && PropsAgreeFrom(t, i)
    ensures t.props[j].json == t.props[j].js && NamesAgree(t.props[j].typ)
    decreases j - i
  {
    if i < j {
      PropsAgreeFromAt(t, i + 1, j);
    }
  }

  lemma {:induction false} MembersAgreeFromAt(t: Typ, i: nat, j: nat)
    requires t.UnionT? && i <= j < |t.members| && MembersAgreeFrom(t, i)
    ensures NamesAgree(t.members[j])
    decreases j - i
  {
    if i < j {
      MembersAgreeFromAt(t, i + 1, j);
    }
  }

  /** Each field's names coincide and each field's descriptor agrees. */
  predicate FieldsAgree(props: seq<Prop>) {
    forall i :: 0 <= i < |props| ==> props[i].json == props[i].js && NamesAgree(props[i].typ)
  }

  /** An object descriptor agrees when its fields do. */
  lemma ObjectNamesAgree(t: Typ)
    requires t.ObjectT? && NamesAgree(t.additional) && FieldsAgree(t.props)
    ensures NamesAgree(t)
  {
    PropsAgreeSuffix(t, 0);
  }

  lemma {:induction false} PropsAgreeSuffix(t: Typ, i: nat)
    requires t.ObjectT? && i <= |t.props|
    requires forall j :: i <= j < |t.props| ==> t.props[j].json == t.props[j].js && NamesAgree(t.props[j].typ)
    ensures PropsAgreeFrom(t, i)
    decreases |t.props| - i
  {
    if i < |t.props| {
      PropsAgreeSuffix(t, i + 1);
    }
  }

  /** A union agrees when each member does. */
  lemma UnionNamesAgree(t: Typ)
    requires t.UnionT?
    requires forall i :: 0 <= i < |t.members| ==> NamesAgree(t.members[i])
    ensures NamesAgree(t)
  {
    MembersAgreeSuffix(t, 0);
  }

  lemma {:induction false} MembersAgreeSuffix(t: Typ, i: nat)
    requires t.UnionT? && i <= |t.members|
    requires forall j :: i <= j < |t.members| ==> NamesAgree(t.members[j])
    ensures MembersAgreeFrom(t, i)
    decreases |t.members| - i
  {
    if i < |t.members| {
      MembersAgreeSuffix(t, i + 1);
    }
  }

  predicate TypeMapNamesAgree(m: TypeMap) {
    forall n :: n in m ==> NamesAgree(m[n])
  }
}
