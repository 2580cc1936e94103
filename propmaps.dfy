/** The field-name maps an object descriptor is read through:
    `jsonToJSProps` (cast) and `jsToJSONProps` (uncast), built from the declared
    fields and cached on the descriptor the first time they are asked for. */
module PropMaps {
  import opened Wrappers
  import opened Descriptors

  /** Which map `getProps` is: cast reads json names, uncast reads js names. */
  datatype Dir = Cast | Uncast

  /** One entry of the map, `map[name] = { key: target, typ }`. */
  datatype Binding = Binding(name: string, target: string, typ: Typ)

  function BindingOf(p: Prop, dir: Dir): Binding {
    if dir == Cast then Binding(p.json, p.js, p.typ) else Binding(p.js, p.json, p.typ)
  }

  /** The name a field is read under in direction `dir`. */
  function SourceName(p: Prop, dir: Dir): string {
    BindingOf(p, dir).name
  }

  predicate HasName(m: seq<Binding>, k: string) {
    exists i :: 0 <= i < |m| && m[i].name == k
  }

  predicate DistinctNames(m: seq<Binding>) {
    forall i, j :: 0 <= i < j < |m| ==> m[i].name != m[j].name
  }

  /** Index of the first entry named `k` at or after `from`, or -1. */
  function FindNameFrom(m: seq<Binding>, k: string, from: nat): (i: int)
    requires from <= |m|
    ensures i == -1 || from <= i < |m|
    ensures i == -1 ==> forall j :: from <= j < |m| ==> m[j].name != k
    ensures 0 <= i ==> m[i].name == k && forall j :: from <= j < i ==> m[j].name != k
    decreases |m| - from
  {
    if from == |m| then -1
    else if m[from].name == k then from
    else FindNameFrom(m, k, from + 1)
  }

  /** Index of the entry named `k`, or -1. */
  function FindName(m: seq<Binding>, k: string): (i: int)
    ensures -1 <= i < |m|
    ensures i == -1 <==> !HasName(m, k)
    ensures 0 <= i ==> m[i].name == k && forall j :: 0 <= j < i ==> m[j].name != k
  {
    FindNameFrom(m, k, 0)
  }

  /** `map[b.name] = { key: b.target, typ: b.typ }` on a plain object: an existing
      name keeps its place and takes the new entry, a new name is appended. */
  function Assign(m: seq<Binding>, b: Binding): (r: seq<Binding>)
    ensures !HasName(m, b.name) ==> r == m + [b]
    ensures HasName(m, b.name) ==> |r| == |m| && r[FindName(m, b.name)] == b
  {
    var i := FindName(m, b.name);
    if i == -1 then m + [b] else m[i := b]
  }

  /** Assigning adds the name `b.name` and keeps names distinct. */
  lemma AssignNames(m: seq<Binding>, b: Binding)
    ensures forall k :: HasName(Assign(m, b), k) <==> HasName(m, k) || k == b.name
    ensures DistinctNames(m) ==> DistinctNames(Assign(m, b))
  {
    var r := Assign(m, b);
    var i := FindName(m, b.name);
    if i == -1 {
      assert r[|m|] == b;
      forall k | HasName(m, k) ensures HasName(r, k) {
        var j :| 0 <= j < |m| && m[j].name == k;
        assert r[j] == m[j];
      }
    } else {
      assert r[i] == b;
      forall k | HasName(m, k) ensures HasName(r, k) {
        var j :| 0 <= j < |m| && m[j].name == k;
        if j != i { assert r[j] == m[j]; }
      }
      forall k | HasName(r, k) ensures HasName(m, k) {
        var j :| 0 <= j < |r| && r[j].name == k;
        assert m[j].name == r[j].name;
      }
    }
  }

  /** Assigning keeps `b` and every entry under another name. */
  lemma AssignKeeps(m: seq<Binding>, b: Binding)
    ensures b in Assign(m, b)
    ensures forall c :: c in m && c.name != b.name ==> c in Assign(m, b)
  {
    var r := Assign(m, b);
    var i := FindName(m, b.name);
    if i == -1 {
      assert r[|m|] == b;
    } else {
      assert r[i] == b;
    }
    forall c | c in m && c.name != b.name ensures c in r {
      var j :| 0 <= j < |m| && m[j] == c;
      assert r[j] == c;
    }
  }

  /** Assigning leaves every entry under another name where it was. */
  lemma AssignElsewhere(m: seq<Binding>, b: Binding)
    ensures |Assign(m, b)| >= |m|
    ensures forall x :: 0 <= x < |m| && m[x].name != b.name ==> Assign(m, b)[x] == m[x]
  {
  }

  /** Assigning adds `b` and nothing else. */
  lemma AssignEntries(m: seq<Binding>, b: Binding)
    ensures forall c :: c in Assign(m, b) ==> c in m || c == b
  {
    var i := FindName(m, b.name);
    if i != -1 {
      var r := Assign(m, b);
      assert r == m[i := b];
      forall c | c in r ensures c in m || c == b {
        var j :| 0 <= j < |r| && r[j] == c;
        if j != i { assert r[j] == m[j]; }
      }
    }
  }

  /** The map `getProps` returns for the declared fields, built in declaration order. */
  function BuildPropMap(props: seq<Prop>, dir: Dir): seq<Binding>
    decreases |props|
  {
    if |props| == 0 then []
    else Assign(BuildPropMap(props[..|props| - 1], dir), BindingOf(props[|props| - 1], dir))
  }

  /** The map has one entry per distinct source-side name, and exactly those names. */
  lemma {:induction false} BuildPropMapNames(props: seq<Prop>, dir: Dir, k: string)
    ensures DistinctNames(BuildPropMap(props, dir))
    ensures HasName(BuildPropMap(props, dir), k) <==> exists i :: 0 <= i < |props| && SourceName(props[i], dir) == k
    decreases |props|
  {
    if |props| > 0 {
      var init := props[..|props| - 1];
      BuildPropMapNames(init, dir, k);
      AssignNames(BuildPropMap(init, dir), BindingOf(props[|props| - 1], dir));
      assert forall i :: 0 <= i < |init| ==> init[i] == props[i];
    }
  }

  /** Every entry of the map is the binding of some declared field. */
  lemma {:induction false} BuildPropMapEntries(props: seq<Prop>, dir: Dir)
    ensures forall c :: c in BuildPropMap(props, dir) ==> exists x :: 0 <= x < |props| && c == BindingOf(props[x], dir)
    decreases |props|
  {
    if |props| > 0 {
      var init := props[..|props| - 1];
      BuildPropMapEntries(init, dir);
      AssignEntries(BuildPropMap(init, dir), BindingOf(props[|props| - 1], dir));
      forall c | c in BuildPropMap(props, dir)
        ensures exists x :: 0 <= x < |props| && c == BindingOf(props[x], dir)
      {
        if c in BuildPropMap(init, dir) {
          var x :| 0 <= x < |init| && c == BindingOf(init[x], dir);
          assert init[x] == props[x];
        } else {
          assert c == BindingOf(props[|props| - 1], dir);
        }
      }
    }
  }

  /** A field that is the last one declared under its source-side name is the
      entry the map keeps for that name: later declarations overwrite earlier ones. */
  lemma {:induction false} BuildPropMapLastWins(props: seq<Prop>, dir: Dir, j: nat)
    requires j < |props|
    requires forall l :: j < l < |props| ==> SourceName(props[l], dir) != SourceName(props[j], dir)
    ensures BindingOf(props[j], dir) in BuildPropMap(props, dir)
    decreases |props|
  {
    var init := props[..|props| - 1];
    AssignKeeps(BuildPropMap(init, dir), BindingOf(props[|props| - 1], dir));
    if j < |props| - 1 {
      assert init[j] == props[j];
      BuildPropMapLastWins(init, dir, j);
    }
  }

  /** With distinct source-side names, the map lists every field once, in declaration order. */
  lemma {:induction false} BuildPropMapOfDistinct(props: seq<Prop>, dir: Dir)
    requires forall i, j :: 0 <= i < j < |props| ==> SourceName(props[i], dir) != SourceName(props[j], dir)
    ensures BuildPropMap(props, dir) == seq(|props|, i requires 0 <= i < |props| => BindingOf(props[i], dir))
    decreases |props|
  {
    if |props| > 0 {
      var init := props[..|props| - 1];
      BuildPropMapOfDistinct(init, dir);
      var last := BindingOf(props[|props| - 1], dir);
      var m := BuildPropMap(init, dir);
      assert m == seq(|init|, i requires 0 <= i < |init| => BindingOf(init[i], dir));
      assert forall i :: 0 <= i < |m| ==> m[i].name == SourceName(props[i], dir) != last.name;
      assert !HasName(m, last.name);
      assert BuildPropMap(props, dir) == m + [last];
      assert m + [last] == seq(|props|, i requires 0 <= i < |props| => BindingOf(props[i], dir));
    }
  }

  /** The first `n` fields sit at the head of the map, in order, when their
      names are distinct and no later field reuses one of them. */
  lemma {:induction false} BuildPropMapPrefix(props: seq<Prop>, dir: Dir, n: nat)
    requires n <= |props|
    requires forall i, j :: 0 <= i < j < n ==> SourceName(props[i], dir) != SourceName(props[j], dir)
    requires forall i, l :: 0 <= i < n <= l < |props| ==> SourceName(props[i], dir) != SourceName(props[l], dir)
    ensures |BuildPropMap(props, dir)| >= n
    ensures forall i :: 0 <= i < n ==> BuildPropMap(props, dir)[i] == BindingOf(props[i], dir)
    decreases |props|
  {
    if |props| == n {
      BuildPropMapOfDistinct(props, dir);
    } else {
      var init := props[..|props| - 1];
      assert forall i :: 0 <= i < |init| ==> init[i] == props[i];
      BuildPropMapPrefix(init, dir, n);
      AssignElsewhere(BuildPropMap(init, dir), BindingOf(props[|props| - 1], dir));
    }
  }

  function Swapped(p: Prop): Prop {
    Prop(p.js, p.json, p.typ)
  }

  /** `jsToJSONProps` is `jsonToJSProps` of the fields with json and js exchanged. */
  lemma {:induction false} MirrorImage(props: seq<Prop>)
    ensures BuildPropMap(props, Uncast) == BuildPropMap(seq(|props|, i requires 0 <= i < |props| => Swapped(props[i])), Cast)
    decreases |props|
  {
    var sw := seq(|props|, i requires 0 <= i < |props| => Swapped(props[i]));
    if |props| > 0 {
      var init := props[..|props| - 1];
      var swInit := seq(|init|, i requires 0 <= i < |init| => Swapped(init[i]));
      MirrorImage(init);
      assert sw[..|sw| - 1] == swInit;
      assert BindingOf(sw[|sw| - 1], Cast) == BindingOf(props[|props| - 1], Uncast);
      calc {
        BuildPropMap(sw, Cast);
        Assign(BuildPropMap(swInit, Cast), BindingOf(sw[|sw| - 1], Cast));
        Assign(BuildPropMap(init, Uncast), BindingOf(props[|props| - 1], Uncast));
        BuildPropMap(props, Uncast);
      }
    }
  }

  /** When every field has json == js, cast and uncast read through the same map. */
  lemma {:induction false} AgreeingNamesSameMap(props: seq<Prop>)
    requires forall i :: 0 <= i < |props| ==> props[i].json == props[i].js
    ensures BuildPropMap(props, Cast) == BuildPropMap(props, Uncast)
    decreases |props|
  {
    if |props| > 0 {
      AgreeingNamesSameMap(props[..|props| - 1]);
    }
  }

  /** The `forEach` that fills a fresh map. */
  method BuildMap(props: seq<Prop>, dir: Dir) returns (m: seq<Binding>)
    ensures m == BuildPropMap(props, dir)
  {
    m := [];
    var i := 0;
    while i < |props|
      invariant 0 <= i <= |props|
      invariant m == BuildPropMap(props[..i], dir)
    {
      assert props[..i + 1][..i] == props[..i];
      m := Assign(m, BindingOf(props[i], dir));
      i := i + 1;
    }
    assert props[..|props|] == props;
  }

  /** An object descriptor `o(props, additional)` as an object: the two maps are
      memoised on it, in the fields `jsonToJS` and `jsToJSON`. */
  class ObjectDescriptor {
    const props: seq<Prop>
    const additional: Typ
    var jsonToJS: Option<seq<Binding>>
    var jsToJSON: Option<seq<Binding>>

    /** A cached map is always the map of the declared fields. */
    ghost predicate Valid()
      reads this
    {
      && (jsonToJS.Some? ==> jsonToJS.value == BuildPropMap(props, Cast))
      && (jsToJSON.Some? ==> jsToJSON.value == BuildPropMap(props, Uncast))
    }

    constructor (props: seq<Prop>, additional: Typ)
      ensures Valid()
      ensures this.props == props && this.additional == additional
      ensures jsonToJS.None? && jsToJSON.None?
    {
      this.props := props;
      this.additional := additional;
      jsonToJS := None;
      jsToJSON := None;
    }

    /** `jsonToJSProps(typ)`: build and store the map on first use, then return the stored one. */
    method JsonToJSProps() returns (m: seq<Binding>)
      requires Valid()
      modifies this
      ensures Valid()
      ensures m == BuildPropMap(props, Cast)
      ensures jsonToJS == Some(m) && jsToJSON == old(jsToJSON)
      ensures old(jsonToJS).Some? ==> jsonToJS == old(jsonToJS)
    {
      if jsonToJS.None? {
        var built := BuildMap(props, Cast);
        jsonToJS := Some(built);
      }
      m := jsonToJS.value;
    }

    /** `jsToJSONProps(typ)`, the mirror image. */
    method JsToJSONProps() returns (m: seq<Binding>)
      requires Valid()
      modifies this
      ensures Valid()
      ensures m == BuildPropMap(props, Uncast)
      ensures jsToJSON == Some(m) && jsonToJS == old(jsonToJS)
      ensures old(jsToJSON).Some? ==> jsToJSON == old(jsToJSON)
    {
      if jsToJSON.None? {
        var built := BuildMap(props, Uncast);
        jsToJSON := Some(built);
      }
      m := jsToJSON.value;
    }

    /** The `getProps` argument `cast` or `uncast` passes down. */
    method GetProps(dir: Dir) returns (m: seq<Binding>)
      requires Valid()
      modifies this
      ensures Valid()
      ensures m == BuildPropMap(props, dir)
      ensures dir == Cast ==> jsonToJS == Some(m) && jsToJSON == old(jsToJSON)
      ensures dir == Uncast ==> jsToJSON == Some(m) && jsonToJS == old(jsonToJS)
    {
      if dir == Cast {
        m := JsonToJSProps();
      } else {
        m := JsToJSONProps();
      }
    }
  }

  /** Asking twice gives the same map and leaves the cache as the first call left it. */
  method MemoIsIdempotent(d: ObjectDescriptor, dir: Dir) returns (first: seq<Binding>, second: seq<Binding>)
    requires d.Valid()
    modifies d
    ensures first == second == BuildPropMap(d.props, dir)
    ensures d.Valid()
    ensures dir == Cast ==> d.jsonToJS == Some(first) && d.jsToJSON == old(d.jsToJSON)
    ensures dir == Uncast ==> d.jsToJSON == Some(first) && d.jsonToJS == old(d.jsonToJS)
  {
    first := d.GetProps(dir);
    ghost var cached := (d.jsonToJS, d.jsToJSON);
    second := d.GetProps(dir);
    assert (d.jsonToJS, d.jsToJSON) == cached;
  }
}
