/** The table generated for the Summary feed (`summary.js`): the shapes that
    `toSummary` casts to and `summaryToJson` uncasts from, rooted at "Summary". */
module SummarySchema {
  import opened Wrappers
  import opened JsonValues
  import opened Descriptors
  import opened PropMaps
  import opened Messages
  import opened Transformer
  import opened TransformRules
  import opened Acceptance
  import opened Directions
  import RoundTrip

  const Summary: Typ := ObjectT([
    Prop("summary", "summary", RefT("SummaryClass"))
  ], FalseT)

  const SummaryClass: Typ := ObjectT([
    Prop("biasSourceCount", "biasSourceCount", NumberMarker),
    Prop("blindspotData", "blindspotData", RefT("BlindspotData")),
    Prop("description", "description", StringMarker),
    Prop("fallbackMedia", "fallbackMedia", RefT("Media")),
    Prop("id", "id", StringMarker),
    Prop("interests", "interests", ArrayT(RefT("Interest"))),
    Prop("latestMedia", "latestMedia", RefT("Media")),
    Prop("start", "start", DateT),
    Prop("title", "title", StringMarker),
    Prop("slug", "slug", StringMarker),
    Prop("factuality", "factuality", RefT("Factuality")),
    Prop("ownership", "ownership", RefT("Ownership")),
    Prop("summary", "summary", StringMarker),
    Prop("place", "place", RefT("Place")),
    Prop("sources", "sources", ArrayT(RefT("Source"))),
    Prop("sourceCount", "sourceCount", NumberMarker)
  ], FalseT)

  const BlindspotData: Typ := ObjectT([
    Prop("coverageProfileStatement", "coverageProfileStatement", StringMarker),
    Prop("coverageProfileType", "coverageProfileType", StringMarker),
    Prop("leftPercent", "leftPercent", NumberMarker),
    Prop("rightPercent", "rightPercent", NumberMarker),
    Prop("centerPercent", "centerPercent", NumberMarker)
  ], FalseT)

  const Factuality: Typ := ObjectT([
    Prop("low", "low", NumberMarker),
    Prop("mixed", "mixed", NumberMarker),
    Prop("high", "high", NumberMarker),
    Prop("unknown", "unknown", NumberMarker)
  ], FalseT)

  const Media: Typ := ObjectT([
    Prop("url", "url", StringMarker),
    Prop("youtubeEmbed", "youtubeEmbed", NullT),
    Prop("isVideo", "isVideo", BooleanMarker),
    Prop("isCover", "isCover", BooleanMarker),
    Prop("nsfw", "nsfw", BooleanMarker),
    Prop("width", "width", NumberMarker),
    Prop("height", "height", NumberMarker),
    Prop("sourceId", "sourceId", NullT),
    Prop("licencedFrom", "licencedFrom", StringMarker),
    Prop("refId", "refId", NullT),
    Prop("sourceLevelOnly", "sourceLevelOnly", BooleanMarker),
    Prop("attributionName", "attributionName", StringMarker),
    Prop("attributionIcon", "attributionIcon", StringMarker),
    Prop("attributionUrl", "attributionUrl", StringMarker),
    Prop("caption", "caption", StringMarker),
    Prop("title", "title", StringMarker),
    Prop("anyVideo", "anyVideo", BooleanMarker)
  ], FalseT)

  const Interest: Typ := ObjectT([
    Prop("id", "id", StringMarker),
    Prop("type", "type", UnionT([UndefinedMarker, RefT("Type")])),
    Prop("name", "name", StringMarker),
    Prop("slug", "slug", StringMarker),
    Prop("icon", "icon", StringMarker),
    Prop("bias", "bias", UnionT([UndefinedMarker, StringMarker]))
  ], FalseT)

  const Ownership: Typ := ObjectT([
    Prop("telecom", "telecom", NumberMarker),
    Prop("privateEquity", "privateEquity", NumberMarker),
    Prop("mediaConglomerate", "mediaConglomerate", NumberMarker),
    Prop("billionaire", "billionaire", NumberMarker),
    Prop("government", "government", NumberMarker),
    Prop("independent", "independent", NumberMarker),
    Prop("other", "other", NumberMarker),
    Prop("uncategorized", "uncategorized", NumberMarker),
    Prop("corporation", "corporation", NumberMarker)
  ], FalseT)

  const Place: Typ := ObjectT([
    Prop("id", "id", StringMarker),
    Prop("name", "name", StringMarker),
    Prop("type", "type", StringMarker)
  ], FalseT)

  const Source: Typ := ObjectT([
    Prop("articleId", "articleId", NullT),
    Prop("date", "date", DateT),
    Prop("sourceInfo", "sourceInfo", RefT("Interest"))
  ], FalseT)

  const Type: Typ := EnumT(["place", "person", "topic"])

  const Table: TypeMap := map[
    "Summary" := Summary,
    "SummaryClass" := SummaryClass,
    "BlindspotData" := BlindspotData,
    "Factuality" := Factuality,
    "Media" := Media,
    "Interest" := Interest,
    "Ownership" := Ownership,
    "Place" := Place,
    "Source" := Source,
    "Type" := Type
  ]

  lemma RootEntriesAgree()
    ensures NamesAgree(Summary) && NamesAgree(SummaryClass) && NamesAgree(BlindspotData)
  {
    ObjectNamesAgree(Summary);
    ObjectNamesAgree(SummaryClass);
    ObjectNamesAgree(BlindspotData);
  }

  lemma MediaEntriesAgree()
    ensures NamesAgree(Factuality) && NamesAgree(Media) && NamesAgree(Ownership)
  {
    ObjectNamesAgree(Factuality);
    ObjectNamesAgree(Media);
    ObjectNamesAgree(Ownership);
  }

  lemma InterestEntriesAgree()
    ensures NamesAgree(Interest) && NamesAgree(Place) && NamesAgree(Source)
  {
    UnionNamesAgree(UnionT([UndefinedMarker, RefT("Type")]));
    UnionNamesAgree(UnionT([UndefinedMarker, StringMarker]));
    ObjectNamesAgree(Interest);
    ObjectNamesAgree(Place);
    ObjectNamesAgree(Source);
  }

  /** Every field of every entry declares the same json and js name. */
  lemma TableNamesAgree()
    ensures TypeMapNamesAgree(Table)
  {
    RootEntriesAgree();
    MediaEntriesAgree();
    InterestEntriesAgree();
  }

  lemma TableIsValid()
    ensures ValidTypeMap(Table)
  {
  }

  /** No union of the table lets an earlier member take what a later one produced. */
  lemma TableIsStable()
    ensures RoundTrip.StableTable(Table)
  {
    RootEntriesStable();
    MediaEntriesStable();
    InterestEntriesStable();
  }

  lemma RootEntriesStable()
    ensures RoundTrip.Stable(Table, Summary) && RoundTrip.Stable(Table, BlindspotData)
    ensures RoundTrip.Stable(Table, SummaryClass)
  {
    assert RoundTrip.Stable(Table, FalseT);
    SummaryClassStable();
  }

  lemma SummaryClassStable()
    ensures RoundTrip.Stable(Table, SummaryClass)
  {
    assert RoundTrip.Stable(Table, FalseT);
  }

  lemma MediaEntriesStable()
    ensures RoundTrip.Stable(Table, Factuality) && RoundTrip.Stable(Table, Ownership)
    ensures RoundTrip.Stable(Table, Media)
  {
    assert RoundTrip.Stable(Table, FalseT);
    MediaStable();
  }

  lemma MediaStable()
    ensures RoundTrip.Stable(Table, Media)
  {
    assert RoundTrip.Stable(Table, FalseT);
  }

  lemma InterestEntriesStable()
    ensures RoundTrip.Stable(Table, Place) && RoundTrip.Stable(Table, Source)
    ensures RoundTrip.Stable(Table, Interest)
  {
    assert RoundTrip.Stable(Table, FalseT);
    InterestStable();
  }

  /** Both unions of `Interest` list `undefined` first, then a member that keeps its input. */
  lemma InterestStable()
    ensures RoundTrip.Stable(Table, Interest)
  {
    assert RoundTrip.Stable(Table, FalseT);
    assert RoundTrip.Keeps(Table, RefT("Type"));
    assert RoundTrip.Stable(Table, UnionT([UndefinedMarker, RefT("Type")]));
    assert RoundTrip.Keeps(Table, StringMarker);
    assert RoundTrip.Stable(Table, UnionT([UndefinedMarker, StringMarker]));
  }

  /** A Summary value that `toSummary` produced comes back unchanged from
      `summaryToJson`, and casting it again reproduces it. */
  lemma SummaryRoundTrip(parseDate: Value -> Option<int>, x: Value, name: string)
    requires RoundTrip.ReparsesDates(parseDate)
    requires CastValue(Table, parseDate, x, RefT(name)).Ok?
    ensures var v := CastValue(Table, parseDate, x, RefT(name)).value;
      && UncastValue(Table, parseDate, v, RefT(name)) == Ok(v)
      && CastValue(Table, parseDate, v, RefT(name)) == Ok(v)
  {
    TableIsValid();
    TableNamesAgree();
    TableIsStable();
    RoundTrip.CastRoundTrip(Table, parseDate, x, RefT(name));
  }

  /** Every table name, present or not, casts and uncasts identically. */
  lemma CastEqualsUncastOnTable(parseDate: Value -> Option<int>, val: Value, name: string)
    ensures CastValue(Table, parseDate, val, RefT(name)) == UncastValue(Table, parseDate, val, RefT(name))
  {
    TableIsValid();
    TableNamesAgree();
    CastEqualsUncast(Table, parseDate, val, RefT(name));
  }

  /** `Type` accepts exactly "place", "person" and "topic", and returns them unchanged. */
  lemma TypeAcceptsExactly(ctx: Context, val: Value, key: string, parent: string)
    requires ctx.typeMap == Table
    ensures Transform(ctx, val, RefT("Type"), key, parent).Ok? <==>
      val == Str("place") || val == Str("person") || val == Str("topic")
    ensures Transform(ctx, val, RefT("Type"), key, parent).Ok? ==> Transform(ctx, val, RefT("Type"), key, parent).value == val
  {
    RefRule(ctx, val, "Type", key, parent);
    EnumRule(ctx, val, ["place", "person", "topic"], key, parent);
  }

  /** The root's map has the single entry "summary", in both directions. */
  lemma SummaryMap(dir: Dir)
    ensures BuildPropMap(Summary.props, dir) == [Binding("summary", "summary", RefT("SummaryClass"))]
    ensures forall k :: HasName(BuildPropMap(Summary.props, dir), k) <==> k == "summary"
  {
    var pm := BuildPropMap(Summary.props, dir);
    assert Summary.props[..0] == [];
    assert pm == [Binding("summary", "summary", RefT("SummaryClass"))];
    forall k ensures HasName(pm, k) <==> k == "summary" {
      if k == "summary" { assert pm[0].name == k; }
    }
  }

  /** Any top-level key other than "summary" fails the cast. */
  lemma SummaryRootRejectsOtherKeys(parseDate: Value -> Option<int>, val: Value, k: nat)
    requires k < |Own(val)| && Own(val)[k].key != "summary"
    ensures CastValue(Table, parseDate, val, RefT("Summary")).Fail?
  {
    var ctx := Context(Table, Cast, parseDate);
    RefRule(ctx, val, "Summary", "", "");
    SummaryMap(Cast);
    if val.Obj? || val.DateV? {
      UndeclaredKeyRejected(ctx, val, Summary, "Summary", "", "", k);
    }
  }

  /** A successful cast of the root came from an object whose one key is
      "summary", holding a value that casts as a `SummaryClass`. */
  lemma SummaryRootInput(parseDate: Value -> Option<int>, val: Value)
    ensures CastValue(Table, parseDate, val, RefT("Summary")).Ok? ==>
      && val.Obj?
      && HasKey(val.members, "summary")
      && (forall k :: 0 <= k < |val.members| ==> val.members[k].key == "summary")
      && Transform(Context(Table, Cast, parseDate), ValueAt(val, "summary"), RefT("SummaryClass"), "summary", "Summary").Ok?
  {
    TableIsValid();
    assert "Summary" in Table && Table["Summary"] == Summary;
    assert "SummaryClass" in Table && Table["SummaryClass"].ObjectT?;
    RootInputIn(Context(Table, Cast, parseDate), val);
  }

  lemma RootInputIn(ctx: Context, val: Value)
    requires ValidTypeMap(ctx.typeMap) && ctx.dir == Cast
    requires "Summary" in ctx.typeMap && ctx.typeMap["Summary"] == Summary
    requires "SummaryClass" in ctx.typeMap && ctx.typeMap["SummaryClass"].ObjectT?
    ensures Transform(ctx, val, RefT("Summary"), "", "").Ok? ==>
      && val.Obj?
      && HasKey(val.members, "summary")
      && (forall k :: 0 <= k < |val.members| ==> val.members[k].key == "summary")
      && Transform(ctx, ValueAt(val, "summary"), RefT("SummaryClass"), "summary", "Summary").Ok?
  {
    RefRule(ctx, val, "Summary", "", "");
    if TransformObject(ctx, val, Summary, "Summary", "", "").Ok? {
      SummaryMap(Cast);
      ObjectOkParts(ctx, val, Summary, "Summary", "", "");
      var inner := ValueAt(val, "summary");
      if !(inner.Obj? || inner.DateV?) {
        NonObjectRejected(ctx, inner, RefT("SummaryClass"), "summary", "Summary");
      }
      assert HasKey(Own(val), "summary");
      var pm := BuildPropMap(Summary.props, Cast);
      forall k | 0 <= k < |val.members|
        ensures val.members[k].key == "summary"
      {
        assert Own(val)[k] == val.members[k];
        assert HasName(pm, Own(val)[k].key);
      }
    }
  }

  /** A successful cast of the root outputs the single member "summary". */
  lemma SummaryRootOutput(parseDate: Value -> Option<int>, val: Value)
    ensures CastValue(Table, parseDate, val, RefT("Summary")).Ok? ==>
      && Transform(Context(Table, Cast, parseDate), ValueAt(val, "summary"), RefT("SummaryClass"), "summary", "Summary").Ok?
      && CastValue(Table, parseDate, val, RefT("Summary")).value ==
           Obj([Member("summary", Transform(Context(Table, Cast, parseDate), ValueAt(val, "summary"), RefT("SummaryClass"), "summary", "Summary").value)])
  {
    TableIsValid();
    assert "Summary" in Table && Table["Summary"] == Summary;
    assert "SummaryClass" in Table && Table["SummaryClass"].ObjectT?;
    RootOutputIn(Context(Table, Cast, parseDate), val);
  }

  lemma RootOutputIn(ctx: Context, val: Value)
    requires ValidTypeMap(ctx.typeMap) && ctx.dir == Cast
    requires "Summary" in ctx.typeMap && ctx.typeMap["Summary"] == Summary
    requires "SummaryClass" in ctx.typeMap && ctx.typeMap["SummaryClass"].ObjectT?
    ensures Transform(ctx, val, RefT("Summary"), "", "").Ok? ==>
      && Transform(ctx, ValueAt(val, "summary"), RefT("SummaryClass"), "summary", "Summary").Ok?
      && Transform(ctx, val, RefT("Summary"), "", "").value ==
           Obj([Member("summary", Transform(ctx, ValueAt(val, "summary"), RefT("SummaryClass"), "summary", "Summary").value)])
  {
    if Transform(ctx, val, RefT("Summary"), "", "").Ok? {
      RootInputIn(ctx, val);
      RefRule(ctx, val, "Summary", "", "");
      SummaryMap(Cast);
      var pm := BuildPropMap(Summary.props, Cast);
      assert FieldOutcome(ctx, val, pm[0], "Summary").Ok?;
      assert forall k :: 0 <= k < |Own(val)| ==> HasName(pm, Own(val)[k].key);
      ObjectOutput(ctx, val, Summary, "Summary", "", "");
    }
  }

  /** The first two entries of the `Media` map, whichever the direction. */
  lemma MediaMapStart(dir: Dir)
    ensures |BuildPropMap(Media.props, dir)| >= 2
    ensures BuildPropMap(Media.props, dir)[0] == Binding("url", "url", StringMarker)
    ensures BuildPropMap(Media.props, dir)[1] == Binding("youtubeEmbed", "youtubeEmbed", NullT)
  {
    BuildPropMapPrefix(Media.props, dir, 2);
  }

  /** The null marker in `Media` as written: a media object with a string `url`
      and a non-null `youtubeEmbed` fails against `null`, and composing the
      message for that failure throws instead of reporting the field. */
  lemma MediaEmbedFailureThrows(ctx: Context, val: Value, key: string, parent: string, shown: string)
    requires ctx.typeMap == Table
    requires val.Obj? && ValueAt(val, "url").Str? && !ValueAt(val, "youtubeEmbed").Null?
    ensures Transform(ctx, val, RefT("Media"), key, parent) ==
      Fail(InvalidValue(Descriptor(NullT), ValueAt(val, "youtubeEmbed"), "youtubeEmbed", "Media"))
    ensures MessageAsWritten(Transform(ctx, val, RefT("Media"), key, parent).error, shown).None?
  {
    TableIsValid();
    assert "Media" in Table && Table["Media"] == Media;
    MediaEmbedIn(ctx, val, key, parent);
  }

  lemma MediaEmbedIn(ctx: Context, val: Value, key: string, parent: string)
    requires ValidTypeMap(ctx.typeMap)
    requires "Media" in ctx.typeMap && ctx.typeMap["Media"] == Media
    requires val.Obj? && ValueAt(val, "url").Str? && !ValueAt(val, "youtubeEmbed").Null?
    ensures Transform(ctx, val, RefT("Media"), key, parent) ==
      Fail(InvalidValue(Descriptor(NullT), ValueAt(val, "youtubeEmbed"), "youtubeEmbed", "Media"))
  {
    RefRule(ctx, val, "Media", key, parent);
    MediaMapStart(ctx.dir);
    var pm := BuildPropMap(Media.props, ctx.dir);
    PrimitiveRule(ctx, ValueAt(val, "url"), StringKind, "url", "Media");
    assert FieldOutcome(ctx, val, pm[0], "Media").Ok?;
    assert FieldOutcome(ctx, val, pm[1], "Media").Fail?;
    ObjectFirstFieldFailure(ctx, val, Media, "Media", key, parent, 1);
  }
}
