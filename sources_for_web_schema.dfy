/** The table generated for the sources list of a story (`sourcesForWeb.js`):
    the shapes that `toSourcesForWeb` casts to and `sourcesForWebToJson`
    uncasts from, rooted at "SourcesForWeb". */
module SourcesForWebSchema {
  import opened Wrappers
  import opened JsonValues
  import opened Descriptors
  import opened PropMaps
  import opened Messages
  import opened Transformer
  import opened TransformRules
  import opened Acceptance
  import opened Directions
  import RoundTrip

  const SourcesForWeb: Typ := ObjectT([
    Prop("sources", "sources", ArrayT(RefT("Source")))
  ], FalseT)

  const Source: Typ := ObjectT([
    Prop("articleId", "articleId", NullT),
    Prop("createdAt", "createdAt", DateT),
    Prop("date", "date", DateT),
    Prop("description", "description", StringMarker),
    Prop("originalDescription", "originalDescription", UnionT([NullT, StringMarker])),
    Prop("lang", "lang", RefT("Lang")),
    Prop("paywall", "paywall", RefT("Paywall")),
    Prop("refId", "refId", StringMarker),
    Prop("sortData", "sortData", RefT("SortData")),
    Prop("title", "title", StringMarker),
    Prop("originalTitle", "originalTitle", UnionT([NullT, StringMarker])),
    Prop("url", "url", StringMarker),
    Prop("sourceInfo", "sourceInfo", RefT("SourceInfo"))
  ], FalseT)

  const SortData: Typ := ObjectT([
    Prop("locality", "locality", RefT("Locality")),
    Prop("bias", "bias", RefT("BiasClass")),
    Prop("date", "date", RefT("BiasClass"))
  ], FalseT)

  const BiasClass: Typ := ObjectT([
    Prop("index", "index", NumberMarker),
    Prop("labelData", "labelData", UnionT([DateT, RefT("BiasEnum"), NullT]))
  ], FalseT)

  const Locality: Typ := ObjectT([
    Prop("index", "index", NumberMarker),
    Prop("labelData", "labelData", RefT("LabelDataEnum")),
    Prop("flag", "flag", UnionT([NullT, StringMarker]))
  ], FalseT)

  const SourceInfo: Typ := ObjectT([
    Prop("bias", "bias", RefT("BiasEnum")),
    Prop("biasRatings", "biasRatings", ArrayT(RefT("BiasRating"))),
    Prop("icon", "icon", StringMarker),
    Prop("id", "id", StringMarker),
    Prop("interestId", "interestId", StringMarker),
    Prop("location", "location", UnionT([RefT("Location"), NullT])),
    Prop("name", "name", StringMarker),
    Prop("paywall", "paywall", RefT("Paywall")),
    Prop("place", "place", ArrayT(RefT("Place"))),
    Prop("placeId", "placeId", UnionT([NullT, StringMarker])),
    Prop("storyCount", "storyCount", NumberMarker),
    Prop("slug", "slug", StringMarker),
    Prop("factuality", "factuality", RefT("Factuality")),
    Prop("owners", "owners", ArrayT(RefT("Owner"))),
    Prop("originalBias", "originalBias", RefT("BiasEnum"))
  ], FalseT)

  const BiasRating: Typ := ObjectT([
    Prop("reviewerId", "reviewerId", StringMarker),
    Prop("politicalBias", "politicalBias", RefT("PoliticalBias")),
    Prop("referenceUrl", "referenceUrl", StringMarker),
    Prop("sourceInfoId", "sourceInfoId", StringMarker),
    Prop("reviewer", "reviewer", RefT("Reviewer"))
  ], FalseT)

  const Reviewer: Typ := ObjectT([
    Prop("id", "id", StringMarker),
    Prop("name", "name", StringMarker),
    Prop("icon", "icon", StringMarker)
  ], FalseT)

  const Location: Typ := ObjectT([
    Prop("lat", "lat", NumberMarker),
    Prop("lon", "lon", NumberMarker)
  ], FalseT)

  const Owner: Typ := ObjectT([
    Prop("id", "id", NumberMarker),
    Prop("category", "category", StringMarker),
    Prop("name", "name", StringMarker)
  ], FalseT)

  const Place: Typ := ObjectT([
    Prop("id", "id", StringMarker),
    Prop("name", "name", StringMarker),
    Prop("type", "type", StringMarker)
  ], FalseT)

  const Lang: Typ := EnumT(["en", "he", "ar"])

  const Paywall: Typ := EnumT(["no", "sometimes", "yes"])

  const BiasEnum: Typ := EnumT(["center", "leanLeft", "leanRight", "left", "right", "unknown"])

  const LabelDataEnum: Typ := EnumT(["international", "other"])

  const PoliticalBias: Typ := EnumT(["center", "leanLeft", "leanRight", "left", "right", "unknown"])

  const Factuality: Typ := EnumT(["high", "mixed", "unknown"])

  const Table: TypeMap := map[
    "SourcesForWeb" := SourcesForWeb,
    "Source" := Source,
    "SortData" := SortData,
    "BiasClass" := BiasClass,
    "Locality" := Locality,
    "SourceInfo" := SourceInfo,
    "BiasRating" := BiasRating,
    "Reviewer" := Reviewer,
    "Location" := Location,
    "Owner" := Owner,
    "Place" := Place,
    "Lang" := Lang,
    "Paywall" := Paywall,
    "BiasEnum" := BiasEnum,
    "LabelDataEnum" := LabelDataEnum,
    "PoliticalBias" := PoliticalBias,
    "Factuality" := Factuality
  ]

  lemma SourceEntriesAgree()
    ensures NamesAgree(SourcesForWeb) && NamesAgree(Source)
  {
    UnionNamesAgree(UnionT([NullT, StringMarker]));
    ObjectNamesAgree(SourcesForWeb);
    ObjectNamesAgree(Source);
  }

  lemma SortEntriesAgree()
    ensures NamesAgree(SortData) && NamesAgree(Locality)
  {
    UnionNamesAgree(UnionT([NullT, StringMarker]));
    ObjectNamesAgree(SortData);
    ObjectNamesAgree(Locality);
  }

  lemma BiasEntriesAgree()
    ensures NamesAgree(BiasClass) && NamesAgree(BiasRating) && NamesAgree(Reviewer) && NamesAgree(Owner)
  {
    UnionNamesAgree(UnionT([DateT, RefT("BiasEnum"), NullT]));
    ObjectNamesAgree(BiasClass);
    ObjectNamesAgree(BiasRating);
    ObjectNamesAgree(Reviewer);
    ObjectNamesAgree(Owner);
  }

  lemma SourceInfoEntriesAgree()
    ensures NamesAgree(SourceInfo)
  {
    UnionNamesAgree(UnionT([NullT, StringMarker]));
    UnionNamesAgree(UnionT([RefT("Location"), NullT]));
    ObjectNamesAgree(SourceInfo);
  }

  lemma PlaceEntriesAgree()
    ensures NamesAgree(Location) && NamesAgree(Place)
  {
    ObjectNamesAgree(Location);
    ObjectNamesAgree(Place);
  }

  /** Every field of every entry declares the same json and js name. */
  lemma TableNamesAgree()
    ensures TypeMapNamesAgree(Table)
  {
    SourceEntriesAgree();
    SortEntriesAgree();
    BiasEntriesAgree();
    SourceInfoEntriesAgree();
    PlaceEntriesAgree();
  }

  lemma TableIsValid()
    ensures ValidTypeMap(Table)
  {
  }

  /** No union of the table lets an earlier member take what a later one produced. */
  lemma TableIsStable()
    ensures RoundTrip.StableTable(Table)
  {
    SourceStable();
    SortEntriesStable();
    BiasClassStable();
    SourceInfoStable();
    OtherEntriesStable();
  }

  /** `[null, string]`: `string` keeps its input. */
  lemma NullOrStringStable()
    ensures RoundTrip.Stable(Table, UnionT([NullT, StringMarker]))
  {
    assert RoundTrip.Keeps(Table, StringMarker);
  }

  lemma SourceStable()
    ensures RoundTrip.Stable(Table, SourcesForWeb) && RoundTrip.Stable(Table, Source)
  {
    assert RoundTrip.Stable(Table, FalseT);
    NullOrStringStable();
  }

  lemma SortEntriesStable()
    ensures RoundTrip.Stable(Table, SortData) && RoundTrip.Stable(Table, Locality)
  {
    assert RoundTrip.Stable(Table, FalseT);
    NullOrStringStable();
  }

  /** `[Date, BiasEnum, null]`: the enum and `null` keep their input. */
  lemma BiasClassStable()
    ensures RoundTrip.Stable(Table, BiasClass)
  {
    assert RoundTrip.Stable(Table, FalseT);
    var ms := [DateT, RefT("BiasEnum"), NullT];
    assert RoundTrip.Keeps(Table, ms[1]) && RoundTrip.Keeps(Table, ms[2]);
    assert RoundTrip.Stable(Table, UnionT(ms));
  }

  /** `[Location, null]`: `null` keeps its input. */
  lemma SourceInfoStable()
    ensures RoundTrip.Stable(Table, SourceInfo)
  {
    assert RoundTrip.Stable(Table, FalseT);
    NullOrStringStable();
    var ms := [RefT("Location"), NullT];
    assert RoundTrip.Keeps(Table, ms[1]);
    assert RoundTrip.Stable(Table, UnionT(ms));
  }

  lemma OtherEntriesStable()
    ensures RoundTrip.Stable(Table, BiasRating) && RoundTrip.Stable(Table, Reviewer)
    ensures RoundTrip.Stable(Table, Location) && RoundTrip.Stable(Table, Owner) && RoundTrip.Stable(Table, Place)
  {
    assert RoundTrip.Stable(Table, FalseT);
    ReviewerEntriesStable();
    LocationEntriesStable();
  }

  lemma LocationEntriesStable()
    ensures RoundTrip.Stable(Table, Location) && RoundTrip.Stable(Table, Owner)
  {
    assert RoundTrip.Stable(Table, FalseT);
  }

  lemma ReviewerEntriesStable()
    ensures RoundTrip.Stable(Table, BiasRating) && RoundTrip.Stable(Table, Reviewer)
  {
    assert RoundTrip.Stable(Table, FalseT);
  }

  /** A SourcesForWeb value that `toSourcesForWeb` produced comes back unchanged
      from `sourcesForWebToJson`, and casting it again reproduces it. */
  lemma SourcesForWebRoundTrip(parseDate: Value -> Option<int>, x: Value, name: string)
    requires RoundTrip.ReparsesDates(parseDate)
    requires CastValue(Table, parseDate, x, RefT(name)).Ok?
    ensures var v := CastValue(Table, parseDate, x, RefT(name)).value;
      && UncastValue(Table, parseDate, v, RefT(name)) == Ok(v)
      && CastValue(Table, parseDate, v, RefT(name)) == Ok(v)
  {
    TableIsValid();
    TableNamesAgree();
    TableIsStable();
    RoundTrip.CastRoundTrip(Table, parseDate, x, RefT(name));
  }

  /** Every table name, present or not, casts and uncasts identically. */
  lemma CastEqualsUncastOnTable(parseDate: Value -> Option<int>, val: Value, name: string)
    ensures CastValue(Table, parseDate, val, RefT(name)) == UncastValue(Table, parseDate, val, RefT(name))
  {
    TableIsValid();
    TableNamesAgree();
    CastEqualsUncast(Table, parseDate, val, RefT(name));
  }

  /** `Lang` accepts only "en", "he" and "ar"; `Paywall` only "no", "sometimes" and "yes". */
  lemma LangAndPaywall(ctx: Context, val: Value, key: string, parent: string)
    requires ctx.typeMap == Table
    ensures Transform(ctx, val, RefT("Lang"), key, parent).Ok? <==>
      val == Str("en") || val == Str("he") || val == Str("ar")
    ensures Transform(ctx, val, RefT("Paywall"), key, parent).Ok? <==>
      val == Str("no") || val == Str("sometimes") || val == Str("yes")
  {
    TableIsValid();
    assert "Lang" in Table && Table["Lang"] == Lang;
    assert "Paywall" in Table && Table["Paywall"] == Paywall;
    LangAndPaywallIn(ctx, val, key, parent);
  }

  lemma LangAndPaywallIn(ctx: Context, val: Value, key: string, parent: string)
    requires ValidTypeMap(ctx.typeMap)
    requires "Lang" in ctx.typeMap && ctx.typeMap["Lang"] == Lang
    requires "Paywall" in ctx.typeMap && ctx.typeMap["Paywall"] == Paywall
    ensures Transform(ctx, val, RefT("Lang"), key, parent).Ok? <==>
      val == Str("en") || val == Str("he") || val == Str("ar")
    ensures Transform(ctx, val, RefT("Paywall"), key, parent).Ok? <==>
      val == Str("no") || val == Str("sometimes") || val == Str("yes")
  {
    RefRule(ctx, val, "Lang", key, parent);
    EnumRule(ctx, val, Lang.cases, key, parent);
    RefRule(ctx, val, "Paywall", key, parent);
    EnumRule(ctx, val, Paywall.cases, key, parent);
  }

  /** `u(null, "")`, the type of `originalDescription`, `originalTitle`, `flag`
      and `placeId`, accepts null or any string, unchanged, and nothing else.
      Any other value fails naming both members, and as written composing that
      message throws, since the list names the null marker. */
  lemma NullOrString(ctx: Context, val: Value, key: string, parent: string, shown: string)
    requires ValidTypeMap(ctx.typeMap)
    ensures Transform(ctx, val, UnionT([NullT, StringMarker]), key, parent).Ok? <==> val.Null? || val.Str?
    ensures Transform(ctx, val, UnionT([NullT, StringMarker]), key, parent).Ok? ==>
      Transform(ctx, val, UnionT([NullT, StringMarker]), key, parent).value == val
    ensures Transform(ctx, val, UnionT([NullT, StringMarker]), key, parent).Fail? ==>
      MessageAsWritten(Transform(ctx, val, UnionT([NullT, StringMarker]), key, parent).error, shown).None?
  {
    var ms := [NullT, StringMarker];
    UnionRule(ctx, val, ms, key, parent);
    MarkerRules(ctx, val, "", "");
    PrimitiveRule(ctx, val, StringKind, "", "");
    if val.Null? {
      UnionFirstSuccessWins(ctx, val, ms, 0, key, parent);
    } else if val.Str? {
      UnionFirstSuccessWins(ctx, val, ms, 1, key, parent);
    }
  }

  /** `labelData` of `BiasClass`, `u(Date, r("BiasEnum"), null)`, tries the
      date first: null comes back through the date branch, anything the parser
      reads becomes a date, and a string it cannot read is kept only when it is
      a `BiasEnum` literal. A number fails all three, and as written composing
      that message throws, since the list names the null marker. */
  lemma LabelData(ctx: Context, val: Value, key: string, parent: string, shown: string)
    requires ctx.typeMap == Table
    ensures val.Null? ==> Transform(ctx, val, BiasClass.props[1].typ, key, parent) == Ok(Null)
    ensures !val.Null? && !val.Num? && ctx.parseDate(val).Some? ==>
      Transform(ctx, val, BiasClass.props[1].typ, key, parent) == Ok(DateV(ctx.parseDate(val).value))
    ensures val.Str? && ctx.parseDate(val).None? ==>
      (Transform(ctx, val, BiasClass.props[1].typ, key, parent).Ok? <==> val.s in BiasEnum.cases)
    ensures val.Str? && ctx.parseDate(val).None? && val.s in BiasEnum.cases ==>
      Transform(ctx, val, BiasClass.props[1].typ, key, parent) == Ok(val)
    ensures val.Num? ==>
      && Transform(ctx, val, BiasClass.props[1].typ, key, parent).Fail?
      && MessageAsWritten(Transform(ctx, val, BiasClass.props[1].typ, key, parent).error, shown).None?
  {
    TableIsValid();
    assert BiasClass.props[1].typ == UnionT([DateT, RefT("BiasEnum"), NullT]);
    assert "BiasEnum" in Table && Table["BiasEnum"] == BiasEnum;
    LabelDataIn(ctx, val, key, parent, shown);
  }

  lemma LabelDataIn(ctx: Context, val: Value, key: string, parent: string, shown: string)
    requires ValidTypeMap(ctx.typeMap) && "BiasEnum" in ctx.typeMap && ctx.typeMap["BiasEnum"] == BiasEnum
    ensures val.Null? ==> Transform(ctx, val, UnionT([DateT, RefT("BiasEnum"), NullT]), key, parent) == Ok(Null)
    ensures !val.Null? && !val.Num? && ctx.parseDate(val).Some? ==>
      Transform(ctx, val, UnionT([DateT, RefT("BiasEnum"), NullT]), key, parent) == Ok(DateV(ctx.parseDate(val).value))
    ensures val.Str? && ctx.parseDate(val).None? ==>
      (Transform(ctx, val, UnionT([DateT, RefT("BiasEnum"), NullT]), key, parent).Ok? <==> val.s in BiasEnum.cases)
    ensures val.Str? && ctx.parseDate(val).None? && val.s in BiasEnum.cases ==>
      Transform(ctx, val, UnionT([DateT, RefT("BiasEnum"), NullT]), key, parent) == Ok(val)
    ensures val.Num? ==>
      && Transform(ctx, val, UnionT([DateT, RefT("BiasEnum"), NullT]), key, parent).Fail?
      && MessageAsWritten(Transform(ctx, val, UnionT([DateT, RefT("BiasEnum"), NullT]), key, parent).error, shown).None?
  {
    var ms := [DateT, RefT("BiasEnum"), NullT];
    UnionRule(ctx, val, ms, key, parent);
    DateRule(ctx, val, "", "");
    RefRule(ctx, val, "BiasEnum", "", "");
    EnumRule(ctx, val, BiasEnum.cases, "", "");
    MarkerRules(ctx, val, "", "");
    if val.Null? || (!val.Num? && ctx.parseDate(val).Some?) {
      UnionFirstSuccessWins(ctx, val, ms, 0, key, parent);
    } else if val.Str? && ctx.parseDate(val).None? && val.s in BiasEnum.cases {
      UnionFirstSuccessWins(ctx, val, ms, 1, key, parent);
    } else if val.Num? {
      NullMarkerMessageThrows(val, key, parent, shown);
    }
  }
}
