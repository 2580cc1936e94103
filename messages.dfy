/** The failure a call reports (`invalidValue`) and its text (`prettyTypeName`). */
module Messages {
  import opened Wrappers
  import opened JsonValues
  import opened Descriptors

  /** What `invalidValue` is handed as its `typ` argument: a descriptor, a
      literal `l(text)`, a union's member list, or an enum's cases wrapped in `l`. */
  datatype Expected =
    | Descriptor(t: Typ)
    | Literal(text: string)
    | Members(ts: seq<Typ>)
    | Literals(cases: seq<string>)

  /** The arguments of `invalidValue(typ, val, key, parent)`; `""` stands for an
      absent key or parent (both are falsy where the text is built). */
  datatype Failure = InvalidValue(expected: Expected, got: Value, key: string, parent: string)

  /** `.join(", ")`. */
  function Join(ss: seq<string>): string {
    if |ss| == 0 then ""
    else if |ss| == 1 then ss[0]
    else ss[0] + ", " + Join(ss[1..])
  }

  /** Every joined item appears in the joined text. */
  lemma {:induction false} JoinContains(ss: seq<string>, i: nat)
    requires i < |ss|
    ensures exists pre, post :: Join(ss) == pre + ss[i] + post
  {
    if |ss| == 1 {
      assert Join(ss) == "" + ss[0] + "";
    } else if i == 0 {
      assert Join(ss) == "" + ss[0] + (", " + Join(ss[1..]));
    } else {
      JoinContains(ss[1..], i - 1);
      var pre, post :| Join(ss[1..]) == pre + ss[1..][i - 1] + post;
      assert Join(ss) == (ss[0] + ", " + pre) + ss[i] + post;
    }
  }

  /** `prettyTypeName` of a descriptor, with the null marker named "null". */
  function DescriptorName(t: Typ): string {
    match t
    case AnyT => "string"                 // the marker is the string "any"
    case NullT => "null"
    case FalseT => "boolean"
    case EnumT(cases) => "one of [" + Join(seq(|cases|, _ => "string")) + "]"
    case DateT => "function"              // typeof Date
    case PrimT(k) => KindTypeOf(k)
    case _ => "object"                    // r(..), u(..), a(..), o(..) carry no literal
  }

  /** `prettyTypeName` of a descriptor as written: `typ.literal` is read from
      `null` too, which throws a TypeError (None). */
  function DescriptorNameAsWritten(t: Typ): Option<string> {
    if t.NullT? then None else Some(DescriptorName(t))
  }

  /** `prettyTypeName(typ)` for what `invalidValue` receives. */
  function PrettyTypeName(e: Expected): string {
    match e
    case Descriptor(t) => DescriptorName(t)
    case Literal(text) => text
    case Members(ts) =>
      if |ts| == 2 && ts[0] == UndefinedMarker then "an optional " + DescriptorName(ts[1])
      else "one of [" + Join(seq(|ts|, i requires 0 <= i < |ts| => DescriptorName(ts[i]))) + "]"
    case Literals(cases) => "one of [" + Join(cases) + "]"
  }

  /** True when printing `e` as written dereferences the null marker. */
  predicate ReadsNullMarker(e: Expected) {
    match e
    case Descriptor(t) => t.NullT?
    case Members(ts) =>
      if |ts| == 2 && ts[0] == UndefinedMarker then ts[1].NullT?
      else exists i :: 0 <= i < |ts| && ts[i].NullT?
    case _ => false
  }

  /** `prettyTypeName(typ)` as written; None is the TypeError thrown on the null marker. */
  function PrettyTypeNameAsWritten(e: Expected): (r: Option<string>)
    ensures r.None? <==> ReadsNullMarker(e)
    ensures r.Some? ==> r.value == PrettyTypeName(e)
  {
    match e
    case Descriptor(t) => DescriptorNameAsWritten(t)
    case Literal(text) => Some(text)
    case Members(ts) =>
      if |ts| == 2 && ts[0] == UndefinedMarker then
        (if ts[1].NullT? then None else Some("an optional " + DescriptorName(ts[1])))
      else if exists i :: 0 <= i < |ts| && ts[i].NullT? then None
      else Some(PrettyTypeName(e))
    case Literals(cases) => Some("one of [" + Join(cases) + "]")
  }

  function KeyText(key: string): string {
    if key != "" then " for key \"" + key + "\"" else ""
  }

  function ParentText(parent: string): string {
    if parent != "" then " on " + parent else ""
  }

  /** The text of the error `invalidValue` throws; `shown` is `JSON.stringify(val)`. */
  function Message(f: Failure, shown: string): string {
    "Invalid value" + KeyText(f.key) + ParentText(f.parent) + ". Expected " + PrettyTypeName(f.expected) + " but got " + shown
  }

  /** The text opens with "Invalid value", then names the key if there is one,
      then the parent if there is one, then the expected shape, and closes with
      the offending value: the four layouts, one per key/parent combination. */
  lemma MessageLayout(f: Failure, shown: string)
    ensures var text := Message(f, shown);
      && |text| >= 13 && text[..13] == "Invalid value"
      && var g := " but got " + shown; |text| >= |g| && text[|text| - |g|..] == g
    ensures var rest := ". Expected " + PrettyTypeName(f.expected) + " but got " + shown;
      && (f.key != "" && f.parent != "" ==> Message(f, shown) == "Invalid value" + " for key \"" + f.key + "\"" + " on " + f.parent + rest)
      && (f.key != "" && f.parent == "" ==> Message(f, shown) == "Invalid value" + " for key \"" + f.key + "\"" + rest)
      && (f.key == "" && f.parent != "" ==> Message(f, shown) == "Invalid value" + " on " + f.parent + rest)
      && (f.key == "" && f.parent == "" ==> Message(f, shown) == "Invalid value" + rest)
  {
    var name := PrettyTypeName(f.expected);
    HeadAndTail(KeyText(f.key), ParentText(f.parent), name, shown);
    Cases(f.key, f.parent, ". Expected " + name + " but got " + shown);
    Pieces("Invalid value", KeyText(f.key), ParentText(f.parent), ". Expected ", name, " but got ", shown);
  }

  /** The key and parent texts for each combination of key and parent. */
  lemma Cases(key: string, parent: string, rest: string)
    ensures var text := "Invalid value" + KeyText(key) + ParentText(parent) + rest;
      && (key != "" && parent != "" ==> text == "Invalid value" + " for key \"" + key + "\"" + " on " + parent + rest)
      && (key != "" && parent == "" ==> text == "Invalid value" + " for key \"" + key + "\"" + rest)
      && (key == "" && parent != "" ==> text == "Invalid value" + " on " + parent + rest)
      && (key == "" && parent == "" ==> text == "Invalid value" + rest)
  {
    if key != "" && parent != "" {
      KeyAndParent(key, parent, rest);
    } else if key != "" {
      KeyOnly(key, rest);
    } else if parent != "" {
      ParentOnly(parent, rest);
    } else {
      assert KeyText(key) + ParentText(parent) == "";
      Neither("Invalid value", rest);
    }
  }

  /** Both texts present: key text, then parent text. */
  lemma KeyAndParent(key: string, parent: string, rest: string)
    requires key != "" && parent != ""
    ensures "Invalid value" + KeyText(key) + ParentText(parent) + rest
      == "Invalid value" + " for key \"" + key + "\"" + " on " + parent + rest
  {
    Regroup("Invalid value", " for key \"", key, "\"", " on ", parent, rest);
  }

  /** Only the key text. */
  lemma KeyOnly(key: string, rest: string)
    requires key != ""
    ensures "Invalid value" + KeyText(key) + ParentText("") + rest
      == "Invalid value" + " for key \"" + key + "\"" + rest
  {
    var h, kt := "Invalid value", " for key \"" + key + "\"";
    assert ParentText("") == "";
    calc {
      h + KeyText(key) + ParentText("") + rest;
      == (h + kt) + "" + rest;
      == { assert (h + kt) + "" == h + kt; }
      (h + kt) + rest;
      == { Regroup(h, " for key \"", key, "\"", "", "", rest); assert h + kt == h + " for key \"" + key + "\"" + ""; }
      h + " for key \"" + key + "\"" + rest;
    }
  }

  /** Only the parent text. */
  lemma ParentOnly(parent: string, rest: string)
    requires parent != ""
    ensures "Invalid value" + KeyText("") + ParentText(parent) + rest
      == "Invalid value" + " on " + parent + rest
  {
    var h := "Invalid value";
    assert KeyText("") == "";
    assert h + "" == h;
    assert h + (" on " + parent) == h + " on " + parent;
  }

  /** Neither text. */
  lemma Neither(h: string, rest: string)
    ensures h + "" + "" + rest == h + rest
  {
    assert h + "" == h;
  }

  /** Regrouping the key and parent texts of the message. */
  lemma Regroup(h: string, a: string, k: string, b: string, c: string, p: string, rest: string)
    ensures h + (a + k + b) + (c + p) + rest == h + a + k + b + c + p + rest
  {
  }

  /** Regrouping the pieces of the message around its key and parent texts. */
  lemma Pieces(h: string, kt: string, pt: string, e: string, name: string, bg: string, shown: string)
    ensures h + kt + pt + e + name + bg + shown == h + kt + pt + (e + name + bg + shown)
  {
  }

  lemma HeadAndTail(kt: string, pt: string, name: string, shown: string)
    ensures var text := "Invalid value" + kt + pt + ". Expected " + name + " but got " + shown;
      && text[..13] == "Invalid value"
      && text[13..13 + |kt|] == kt
      && (kt == "" ==> text[13..13 + |pt|] == pt)
      && var g := " but got " + shown; |text| >= |g| && text[|text| - |g|..] == g
  {
    Layout("Invalid value", kt, pt, ". Expected " + name, " but got " + shown);
  }

  lemma Layout(h: string, kt: string, pt: string, mid: string, g: string)
    ensures var text := h + kt + pt + mid + g;
      && text[..|h|] == h
      && text[|h|..|h| + |kt|] == kt
      && (kt == "" ==> text[|h|..|h| + |pt|] == pt)
      && text[|text| - |g|..] == g
  {
    var text := h + kt + pt + mid + g;
    assert text[..|h|] == h;
    assert text[|h|..|h| + |kt|] == kt;
    assert kt == "" ==> text[|h|..|h| + |pt|] == pt;
    assert text[|text| - |g|..] == g;
  }

  /** The thrown text as written: None when `prettyTypeName` throws first. */
  function MessageAsWritten(f: Failure, shown: string): (r: Option<string>)
    ensures r.None? <==> ReadsNullMarker(f.expected)
    ensures r.Some? ==> r.value == Message(f, shown)
  {
    match PrettyTypeNameAsWritten(f.expected)
    case None => None
    case Some(_) => Some(Message(f, shown))
  }

  /** A union `u(undefined, X)` is reported as "an optional X". */
  lemma OptionalName(x: Typ)
    ensures PrettyTypeName(Members([UndefinedMarker, x])) == "an optional " + DescriptorName(x)
  {
  }

  /** An enum failure lists every literal of the enum. */
  lemma EnumNameListsEveryCase(cases: seq<string>, i: nat)
    requires i < |cases|
    ensures exists pre, post :: PrettyTypeName(Literals(cases)) == pre + cases[i] + post
  {
    JoinContains(cases, i);
    var pre, post :| Join(cases) == pre + cases[i] + post;
    assert PrettyTypeName(Literals(cases)) == "one of [" + Join(cases) + "]";
    assert "one of [" + (pre + cases[i] + post) + "]" == ("one of [" + pre) + cases[i] + (post + "]");
  }

  /** Finding: as written, a failure against the null marker, or against a union
      that lists it, cannot be printed: the message step itself throws. */
  lemma NullMarkerMessageThrows(v: Value, key: string, parent: string, shown: string)
    ensures MessageAsWritten(InvalidValue(Descriptor(NullT), v, key, parent), shown).None?
    ensures MessageAsWritten(InvalidValue(Members([NullT, StringMarker]), v, key, parent), shown).None?
    ensures MessageAsWritten(InvalidValue(Members([DateT, RefT("BiasEnum"), NullT]), v, key, parent), shown).None?
  {
    assert Members([DateT, RefT("BiasEnum"), NullT]).ts[2].NullT?;
  }

  /** The corrected printer names the null marker and agrees with the original
      everywhere the original does not throw. */
  lemma NullMarkerNamed()
    ensures PrettyTypeName(Descriptor(NullT)) == "null"
    ensures PrettyTypeName(Members([NullT, StringMarker])) == "one of [null, string]"
  {
    var ts := [NullT, StringMarker];
    var names := seq(|ts|, i requires 0 <= i < |ts| => DescriptorName(ts[i]));
    assert names == ["null", "string"];
    assert names[1..] == ["string"];
    assert Join(names) == "null" + ", " + "string";
  }
}
