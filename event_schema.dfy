/** The table generated for a story event (`event.js`): the shapes that
    `toEvent` casts to and `eventToJson` uncasts from, rooted at "Event". */
module EventSchema {
  import opened Wrappers
  import opened JsonValues
  import opened Descriptors
  import opened PropMaps
  import opened Transformer
  import opened TransformRules
  import opened Acceptance
  import opened Directions
  import RoundTrip

  const Event: Typ := ObjectT([
    Prop("event", "event", RefT("EventClass"))
  ], FalseT)

  // The 66 fields of `EventClass`, in declaration order, kept in five slices
  // so that each proof about them looks at a short list.
  const EventClassFieldsA: seq<Prop> := [
    Prop("id", "id", StringMarker),
    Prop("title", "title", StringMarker),
    Prop("description", "description", StringMarker),
    Prop("topNewsEditions", "topNewsEditions", ArrayT(StringMarker)),
    Prop("topNewsEligibleEditions", "topNewsEligibleEditions", ArrayT(StringMarker)),
    Prop("start", "start", DateT),
    Prop("topFeedEditionTime", "topFeedEditionTime", DateT),
    Prop("blindspot", "blindspot", NullT),
    Prop("tempExpBlindspot", "tempExpBlindspot", NullT),
    Prop("biasSourceCount", "biasSourceCount", NumberMarker),
    Prop("leftSrcPercent", "leftSrcPercent", NumberMarker),
    Prop("rightSrcPercent", "rightSrcPercent", NumberMarker),
    Prop("leftSrcCount", "leftSrcCount", NumberMarker),
    Prop("rightSrcCount", "rightSrcCount", NumberMarker)
  ]

  const EventClassFieldsB: seq<Prop> := [
    Prop("cntrSrcCount", "cntrSrcCount", NumberMarker),
    Prop("onlyLowFactSources", "onlyLowFactSources", BooleanMarker),
    Prop("onlyPaywallSources", "onlyPaywallSources", BooleanMarker),
    Prop("neutralistBias", "neutralistBias", RefT("NeutralistBias")),
    Prop("highestFactuality", "highestFactuality", RefT("HighestFactualityEnum")),
    Prop("highFactCount", "highFactCount", NumberMarker),
    Prop("mixedFactCount", "mixedFactCount", NumberMarker),
    Prop("lowFactCount", "lowFactCount", NumberMarker),
    Prop("highFactPercent", "highFactPercent", NumberMarker),
    Prop("mixedFactPercent", "mixedFactPercent", NumberMarker),
    Prop("lowFactPercent", "lowFactPercent", NumberMarker),
    Prop("embeddedSrcCount", "embeddedSrcCount", NumberMarker),
    Prop("slug", "slug", StringMarker)
  ]

  const EventClassFieldsC: seq<Prop> := [
    Prop("sourceDocument", "sourceDocument", NullT),
    Prop("place", "place", ArrayT(RefT("Place"))),
    Prop("showCoverageBias", "showCoverageBias", BooleanMarker),
    Prop("tempExpShowCoverageBias", "tempExpShowCoverageBias", BooleanMarker),
    Prop("isAdminSummary", "isAdminSummary", BooleanMarker),
    Prop("carouselType", "carouselType", NullT),
    Prop("location", "location", RefT("Location")),
    Prop("sources", "sources", ArrayT(RefT("Source"))),
    Prop("interests", "interests", ArrayT(RefT("Interest"))),
    Prop("postCount", "postCount", NumberMarker),
    Prop("proInteractionLimit", "proInteractionLimit", NumberMarker),
    Prop("shareUrl", "shareUrl", StringMarker),
    Prop("size", "size", NumberMarker)
  ]

  const EventClassFieldsD: seq<Prop> := [
    Prop("latestMedia", "latestMedia", RefT("Media")),
    Prop("fallbackMedia", "fallbackMedia", RefT("Media")),
    Prop("feedCarousel", "feedCarousel", RefT("FeedCarousel")),
    Prop("newsRoomCoverageAnalysis", "newsRoomCoverageAnalysis", BooleanMarker),
    Prop("showFeedSourceCarousel", "showFeedSourceCarousel", BooleanMarker),
    Prop("blindspotData", "blindspotData", RefT("BlindspotData")),
    Prop("defaultSourceSort", "defaultSourceSort", StringMarker),
    Prop("pulse", "pulse", BooleanMarker),
    Prop("lastModified", "lastModified", DateT),
    Prop("summarySourceId", "summarySourceId", StringMarker),
    Prop("summarySourceName", "summarySourceName", StringMarker),
    Prop("firstSource", "firstSource", RefT("FirstSource")),
    Prop("factuality", "factuality", RefT("FactualityClass"))
  ]

  const EventClassFieldsE: seq<Prop> := [
    Prop("ownership", "ownership", RefT("Ownership")),
    Prop("firstTenSources", "firstTenSources", ArrayT(RefT("FirstTenSource"))),
    Prop("directlyEdited", "directlyEdited", BooleanMarker),
    Prop("topNews", "topNews", BooleanMarker),
    Prop("onlyExtremeSources", "onlyExtremeSources", BooleanMarker),
    Prop("overallBias", "overallBias", NumberMarker),
    Prop("myFeedEligible", "myFeedEligible", BooleanMarker),
    Prop("inSpecialFeeds", "inSpecialFeeds", ArrayT(RefT("SpecialFeed"))),
    Prop("outSpecialFeeds", "outSpecialFeeds", ArrayT(RefT("SpecialFeed"))),
    Prop("distributionVersion", "distributionVersion", NumberMarker),
    Prop("type", "type", StringMarker),
    Prop("chatGptSummaries", "chatGptSummaries", RefT("ChatGPTSummaries")),
    Prop("relatedStoryIds", "relatedStoryIds", ArrayT(AnyT))
  ]

  const EventClass: Typ := ObjectT(
    EventClassFieldsA + EventClassFieldsB + EventClassFieldsC + EventClassFieldsD + EventClassFieldsE,
    FalseT)

  const BlindspotData: Typ := ObjectT([
    Prop("coverageProfileStatement", "coverageProfileStatement", StringMarker),
    Prop("coverageProfileType", "coverageProfileType", StringMarker),
    Prop("leftPercent", "leftPercent", NumberMarker),
    Prop("rightPercent", "rightPercent", NumberMarker),
    Prop("centerPercent", "centerPercent", NumberMarker)
  ], FalseT)

  const ChatGPTSummaries: Typ := ObjectT([
    Prop("center", "center", StringMarker),
    Prop("left", "left", StringMarker),
    Prop("right", "right", StringMarker),
    Prop("analysis", "analysis", StringMarker)
  ], FalseT)

  const FactualityClass: Typ := ObjectT([
    Prop("low", "low", NumberMarker),
    Prop("mixed", "mixed", NumberMarker),
    Prop("high", "high", NumberMarker),
    Prop("unknown", "unknown", NumberMarker)
  ], FalseT)

  const Media: Typ := ObjectT([
    Prop("url", "url", StringMarker),
    Prop("youtubeEmbed", "youtubeEmbed", NullT),
    Prop("isVideo", "isVideo", BooleanMarker),
    Prop("isCover", "isCover", BooleanMarker),
    Prop("nsfw", "nsfw", BooleanMarker),
    Prop("width", "width", NumberMarker),
    Prop("height", "height", NumberMarker),
    Prop("sourceId", "sourceId", NullT),
    Prop("licencedFrom", "licencedFrom", StringMarker),
    Prop("refId", "refId", NullT),
    Prop("sourceLevelOnly", "sourceLevelOnly", BooleanMarker),
    Prop("attributionName", "attributionName", StringMarker),
    Prop("attributionIcon", "attributionIcon", StringMarker),
    Prop("attributionUrl", "attributionUrl", StringMarker),
    Prop("caption", "caption", StringMarker),
    Prop("title", "title", StringMarker),
    Prop("anyVideo", "anyVideo", BooleanMarker),
    Prop("micro", "micro", StringMarker),
    Prop("thumb", "thumb", StringMarker)
  ], FalseT)

  const FeedCarousel: Typ := ObjectT([
    Prop("type", "type", StringMarker),
    Prop("buckets", "buckets", ArrayT(RefT("Bucket")))
  ], FalseT)

  const Bucket: Typ := ObjectT([
    Prop("id", "id", RefT("NeutralistBias")),
    Prop("label", "label", StringMarker),
    Prop("sourceCount", "sourceCount", NumberMarker),
    Prop("percent", "percent", NumberMarker),
    Prop("sampleSourceIcons", "sampleSourceIcons", ArrayT(StringMarker)),
    Prop("sourceRef", "sourceRef", RefT("SourceRef"))
  ], FalseT)

  const SourceRef: Typ := ObjectT([
    Prop("sourceId", "sourceId", StringMarker),
    Prop("refId", "refId", StringMarker),
    Prop("title", "title", StringMarker),
    Prop("description", "description", StringMarker),
    Prop("date", "date", DateT),
    Prop("interestId", "interestId", StringMarker),
    Prop("sourceName", "sourceName", StringMarker),
    Prop("sourceIcon", "sourceIcon", StringMarker),
    Prop("placeLabel", "placeLabel", StringMarker),
    Prop("sourceCountry", "sourceCountry", RefT("SourceCountry")),
    Prop("placeTier", "placeTier", StringMarker),
    Prop("bias", "bias", RefT("NeutralistBias"))
  ], FalseT)

  const SourceCountry: Typ := ObjectT([
    Prop("code", "code", StringMarker),
    Prop("flag", "flag", StringMarker)
  ], FalseT)

  const FirstSource: Typ := ObjectT([
    Prop("title", "title", StringMarker),
    Prop("originalTitle", "originalTitle", NullT),
    Prop("createdAt", "createdAt", DateT),
    Prop("sourceInfo", "sourceInfo", RefT("FirstSourceSourceInfo"))
  ], FalseT)

  const FirstSourceSourceInfo: Typ := ObjectT([
    Prop("id", "id", StringMarker),
    Prop("icon", "icon", StringMarker),
    Prop("name", "name", StringMarker),
    Prop("place", "place", UnionT([UndefinedMarker, ArrayT(RefT("Place"))])),
    Prop("bias", "bias", RefT("NeutralistBias")),
    Prop("originalBias", "originalBias", UnionT([UndefinedMarker, RefT("NeutralistBias")]))
  ], FalseT)

  const Place: Typ := ObjectT([
    Prop("id", "id", StringMarker),
    Prop("name", "name", StringMarker),
    Prop("type", "type", StringMarker)
  ], FalseT)

  const FirstTenSource: Typ := ObjectT([
    Prop("articleId", "articleId", NullT),
    Prop("createdAt", "createdAt", DateT),
    Prop("date", "date", DateT),
    Prop("description", "description", StringMarker),
    Prop("originalDescription", "originalDescription", UnionT([NullT, StringMarker])),
    Prop("refId", "refId", StringMarker),
    Prop("sortData", "sortData", RefT("SortData")),
    Prop("title", "title", StringMarker),
    Prop("originalTitle", "originalTitle", UnionT([NullT, StringMarker])),
    Prop("url", "url", StringMarker),
    Prop("sourceInfo", "sourceInfo", RefT("FirstTenSourceSourceInfo"))
  ], FalseT)

  const SortData: Typ := ObjectT([
    Prop("locality", "locality", RefT("Locality")),
    Prop("bias", "bias", RefT("Bias")),
    Prop("date", "date", RefT("Bias"))
  ], FalseT)

  const Bias: Typ := ObjectT([
    Prop("index", "index", NumberMarker),
    Prop("labelData", "labelData", UnionT([DateT, RefT("NeutralistBias"), NullT]))
  ], FalseT)

  const Locality: Typ := ObjectT([
    Prop("index", "index", NumberMarker),
    Prop("labelData", "labelData", RefT("LabelDataEnum")),
    Prop("flag", "flag", UnionT([NullT, StringMarker]))
  ], FalseT)

  const FirstTenSourceSourceInfo: Typ := ObjectT([
    Prop("bias", "bias", RefT("NeutralistBias")),
    Prop("biasRatings", "biasRatings", ArrayT(RefT("BiasRating"))),
    Prop("icon", "icon", StringMarker),
    Prop("id", "id", StringMarker),
    Prop("interestId", "interestId", StringMarker),
    Prop("location", "location", UnionT([RefT("Location"), NullT])),
    Prop("name", "name", StringMarker),
    Prop("place", "place", ArrayT(RefT("Place"))),
    Prop("placeId", "placeId", UnionT([NullT, StringMarker])),
    Prop("slug", "slug", StringMarker),
    Prop("factuality", "factuality", RefT("HighestFactualityEnum")),
    Prop("owners", "owners", ArrayT(RefT("Owner"))),
    Prop("originalBias", "originalBias", RefT("NeutralistBias"))
  ], FalseT)

  const BiasRating: Typ := ObjectT([
    Prop("reviewerId", "reviewerId", StringMarker),
    Prop("politicalBias", "politicalBias", RefT("NeutralistBias")),
    Prop("referenceUrl", "referenceUrl", StringMarker),
    Prop("sourceInfoId", "sourceInfoId", StringMarker),
    Prop("reviewer", "reviewer", RefT("Reviewer"))
  ], FalseT)

  const Reviewer: Typ := ObjectT([
    Prop("id", "id", StringMarker),
    Prop("name", "name", StringMarker),
    Prop("icon", "icon", StringMarker)
  ], FalseT)

  const Location: Typ := ObjectT([
    Prop("lat", "lat", NumberMarker),
    Prop("lon", "lon", NumberMarker)
  ], FalseT)

  const Owner: Typ := ObjectT([
    Prop("id", "id", NumberMarker),
    Prop("category", "category", UnionT([UndefinedMarker, StringMarker])),
    Prop("name", "name", StringMarker)
  ], FalseT)

  const SpecialFeed: Typ := ObjectT([], FalseT)

  const Interest: Typ := ObjectT([
    Prop("id", "id", StringMarker),
    Prop("type", "type", RefT("InterestType")),
    Prop("name", "name", StringMarker),
    Prop("slug", "slug", StringMarker),
    Prop("icon", "icon", StringMarker),
    Prop("greyListed", "greyListed", BooleanMarker)
  ], FalseT)

  const Ownership: Typ := ObjectT([
    Prop("telecom", "telecom", NumberMarker),
    Prop("privateEquity", "privateEquity", NumberMarker),
    Prop("mediaConglomerate", "mediaConglomerate", NumberMarker),
    Prop("billionaire", "billionaire", NumberMarker),
    Prop("government", "government", NumberMarker),
    Prop("independent", "independent", NumberMarker),
    Prop("other", "other", NumberMarker),
    Prop("uncategorized", "uncategorized", NumberMarker),
    Prop("corporation", "corporation", NumberMarker)
  ], FalseT)

  const Source: Typ := ObjectT([
    Prop("articleId", "articleId", NullT),
    Prop("date", "date", DateT),
    Prop("sourceInfo", "sourceInfo", RefT("FirstSourceSourceInfo"))
  ], FalseT)

  const NeutralistBias: Typ := EnumT(["center", "leanLeft", "leanRight", "left", "right", "unknown"])

  const LabelDataEnum: Typ := EnumT(["international", "other"])

  const HighestFactualityEnum: Typ := EnumT(["high", "mixed", "unknown"])

  const InterestType: Typ := EnumT(["place", "person", "topic"])

  const Table: TypeMap := map[
    "Event" := Event,
    "EventClass" := EventClass,
    "BlindspotData" := BlindspotData,
    "ChatGPTSummaries" := ChatGPTSummaries,
    "FactualityClass" := FactualityClass,
    "Media" := Media,
    "FeedCarousel" := FeedCarousel,
    "Bucket" := Bucket,
    "SourceRef" := SourceRef,
    "SourceCountry" := SourceCountry,
    "FirstSource" := FirstSource,
    "FirstSourceSourceInfo" := FirstSourceSourceInfo,
    "Place" := Place,
    "FirstTenSource" := FirstTenSource,
    "SortData" := SortData,
    "Bias" := Bias,
    "Locality" := Locality,
    "FirstTenSourceSourceInfo" := FirstTenSourceSourceInfo,
    "BiasRating" := BiasRating,
    "Reviewer" := Reviewer,
    "Location" := Location,
    "Owner" := Owner,
    "SpecialFeed" := SpecialFeed,
    "Interest" := Interest,
    "Ownership" := Ownership,
    "Source" := Source,
    "NeutralistBias" := NeutralistBias,
    "LabelDataEnum" := LabelDataEnum,
    "HighestFactualityEnum" := HighestFactualityEnum,
    "InterestType" := InterestType
  ]

  lemma EventClassFieldsAAgree()
    ensures FieldsAgree(EventClassFieldsA)
  {
  }

  lemma EventClassFieldsBAgree()
    ensures FieldsAgree(EventClassFieldsB)
  {
  }

  lemma EventClassFieldsCAgree()
    ensures FieldsAgree(EventClassFieldsC)
  {
  }

  lemma EventClassFieldsDAgree()
    ensures FieldsAgree(EventClassFieldsD)
  {
  }

  lemma EventClassFieldsEAgree()
    ensures FieldsAgree(EventClassFieldsE)
  {
  }

  lemma EventClassNamesAgree()
    ensures NamesAgree(EventClass)
  {
    EventClassFieldsAAgree();
    EventClassFieldsBAgree();
    EventClassFieldsCAgree();
    EventClassFieldsDAgree();
    EventClassFieldsEAgree();
    ObjectNamesAgree(EventClass);
  }

  lemma StoryEntriesAgree()
    ensures NamesAgree(Event) && NamesAgree(BlindspotData) && NamesAgree(ChatGPTSummaries) && NamesAgree(FactualityClass)
  {
    ObjectNamesAgree(Event);
    ObjectNamesAgree(BlindspotData);
    ObjectNamesAgree(ChatGPTSummaries);
    ObjectNamesAgree(FactualityClass);
  }

  lemma MediaEntriesAgree()
    ensures NamesAgree(Media)
  {
    ObjectNamesAgree(Media);
  }

  lemma CarouselEntriesAgree()
    ensures NamesAgree(FeedCarousel) && NamesAgree(Bucket)
  {
    ObjectNamesAgree(FeedCarousel);
    ObjectNamesAgree(Bucket);
  }

  lemma SourceRefEntriesAgree()
    ensures NamesAgree(SourceRef) && NamesAgree(SourceCountry) && NamesAgree(FirstSource) && NamesAgree(Place)
  {
    ObjectNamesAgree(SourceRef);
    ObjectNamesAgree(SourceCountry);
    ObjectNamesAgree(FirstSource);
    ObjectNamesAgree(Place);
  }

  lemma FirstSourceInfoAgree()
    ensures NamesAgree(FirstSourceSourceInfo)
  {
    UnionNamesAgree(UnionT([UndefinedMarker, ArrayT(RefT("Place"))]));
    UnionNamesAgree(UnionT([UndefinedMarker, RefT("NeutralistBias")]));
    ObjectNamesAgree(FirstSourceSourceInfo);
  }

  lemma FirstTenEntriesAgree()
    ensures NamesAgree(FirstTenSource)
  {
    UnionNamesAgree(UnionT([NullT, StringMarker]));
    ObjectNamesAgree(FirstTenSource);
  }

  lemma SortEntriesAgree()
    ensures NamesAgree(SortData) && NamesAgree(Bias) && NamesAgree(Locality)
  {
    UnionNamesAgree(UnionT([NullT, StringMarker]));
    UnionNamesAgree(UnionT([DateT, RefT("NeutralistBias"), NullT]));
    ObjectNamesAgree(SortData);
    ObjectNamesAgree(Bias);
    ObjectNamesAgree(Locality);
  }

  lemma FirstTenSourceInfoAgree()
    ensures NamesAgree(FirstTenSourceSourceInfo)
  {
    UnionNamesAgree(UnionT([NullT, StringMarker]));
    UnionNamesAgree(UnionT([RefT("Location"), NullT]));
    ObjectNamesAgree(FirstTenSourceSourceInfo);
  }

  lemma ReviewEntriesAgree()
    ensures NamesAgree(BiasRating) && NamesAgree(Reviewer) && NamesAgree(Location) && NamesAgree(Owner)
  {
    UnionNamesAgree(UnionT([UndefinedMarker, StringMarker]));
    ObjectNamesAgree(BiasRating);
    ObjectNamesAgree(Reviewer);
    ObjectNamesAgree(Location);
    ObjectNamesAgree(Owner);
  }

  lemma FeedEntriesAgree()
    ensures NamesAgree(SpecialFeed) && NamesAgree(Interest) && NamesAgree(Ownership) && NamesAgree(Source)
  {
    ObjectNamesAgree(SpecialFeed);
    ObjectNamesAgree(Interest);
    ObjectNamesAgree(Ownership);
    ObjectNamesAgree(Source);
  }

  /** Every field of every entry declares the same json and js name. */
  lemma TableNamesAgree()
    ensures TypeMapNamesAgree(Table)
  {
    EventClassNamesAgree();
    StoryEntriesAgree();
    MediaEntriesAgree();
    CarouselEntriesAgree();
    SourceRefEntriesAgree();
    FirstSourceInfoAgree();
    FirstTenEntriesAgree();
    SortEntriesAgree();
    FirstTenSourceInfoAgree();
    ReviewEntriesAgree();
    FeedEntriesAgree();
  }

  /** No union of the table lets an earlier member take what a later one produced. */
  lemma TableIsStable()
    ensures RoundTrip.StableTable(Table)
  {
    assert "NeutralistBias" in Table && Table["NeutralistBias"].EnumT?;
    EntriesStable(Table);
  }

  /** Every descriptor of the table is stable under any table that names `NeutralistBias` as an enum. */
  lemma EntriesStable(m: TypeMap)
    requires "NeutralistBias" in m && m["NeutralistBias"].EnumT?
    ensures forall n :: n in Table ==> RoundTrip.Stable(m, Table[n])
  {
    EventClassStable(m);
    StoryEntriesStable(m);
    MediaEntriesStable(m);
    FeedEntriesStable(m);
    SourceRefEntriesStable(m);
    FirstSourceInfoStable(m);
    FirstTenEntriesStable(m);
    FirstTenSourceInfoStable(m);
    ReviewEntriesStable(m);
  }

  // The entries below hold no union, or only unions whose later members keep
  // their input, so they are stable under any table that names the enum they use.

  lemma EventClassStable(m: TypeMap)
    ensures RoundTrip.Stable(m, EventClass)
  {
    EventClassFieldsAStable(m);
    EventClassFieldsBStable(m);
    EventClassFieldsCStable(m);
    EventClassFieldsDStable(m);
    EventClassFieldsEStable(m);
    RoundTrip.FieldsStableJoin(m, EventClassFieldsA, EventClassFieldsB);
    RoundTrip.FieldsStableJoin(m, EventClassFieldsA + EventClassFieldsB, EventClassFieldsC);
    RoundTrip.FieldsStableJoin(m, EventClassFieldsA + EventClassFieldsB + EventClassFieldsC, EventClassFieldsD);
    RoundTrip.FieldsStableJoin(m, EventClassFieldsA + EventClassFieldsB + EventClassFieldsC + EventClassFieldsD, EventClassFieldsE);
    assert RoundTrip.Stable(m, FalseT);
  }

  lemma EventClassFieldsAStable(m: TypeMap)
    ensures RoundTrip.FieldsStable(m, EventClassFieldsA)
  {
    assert RoundTrip.Stable(m, StringMarker);
  }

  lemma EventClassFieldsBStable(m: TypeMap)
    ensures RoundTrip.FieldsStable(m, EventClassFieldsB)
  {
    assert RoundTrip.Stable(m, StringMarker);
  }

  lemma EventClassFieldsCStable(m: TypeMap)
    ensures RoundTrip.FieldsStable(m, EventClassFieldsC)
  {
    assert RoundTrip.Stable(m, StringMarker);
  }

  lemma EventClassFieldsDStable(m: TypeMap)
    ensures RoundTrip.FieldsStable(m, EventClassFieldsD)
  {
    assert RoundTrip.Stable(m, StringMarker);
  }

  lemma EventClassFieldsEStable(m: TypeMap)
    ensures RoundTrip.FieldsStable(m, EventClassFieldsE)
  {
    assert RoundTrip.Stable(m, StringMarker);
  }

  lemma StoryEntriesStable(m: TypeMap)
    ensures RoundTrip.Stable(m, Event) && RoundTrip.Stable(m, BlindspotData)
    ensures RoundTrip.Stable(m, ChatGPTSummaries) && RoundTrip.Stable(m, FactualityClass)
  {
    assert RoundTrip.Stable(m, FalseT);
  }

  lemma MediaEntriesStable(m: TypeMap)
    ensures RoundTrip.Stable(m, Media) && RoundTrip.Stable(m, FeedCarousel) && RoundTrip.Stable(m, Bucket)
  {
    assert RoundTrip.Stable(m, FalseT);
    MediaStable(m);
  }

  lemma MediaStable(m: TypeMap)
    ensures RoundTrip.Stable(m, Media)
  {
    assert RoundTrip.FieldsStable(m, Media.props[..10]);
    assert RoundTrip.FieldsStable(m, Media.props[10..]);
    RoundTrip.FieldsStableJoin(m, Media.props[..10], Media.props[10..]);
    assert Media.props[..10] + Media.props[10..] == Media.props;
    assert RoundTrip.Stable(m, FalseT);
  }

  lemma SourceRefEntriesStable(m: TypeMap)
    ensures RoundTrip.Stable(m, SourceRef) && RoundTrip.Stable(m, SourceCountry)
    ensures RoundTrip.Stable(m, FirstSource) && RoundTrip.Stable(m, Place)
  {
    assert RoundTrip.Stable(m, FalseT);
  }

  /** `[undefined, Place[]]`: `undefined` takes no array; `[undefined, NeutralistBias]`:
      the enum keeps its input. */
  lemma FirstSourceInfoStable(m: TypeMap)
    requires "NeutralistBias" in m && m["NeutralistBias"].EnumT?
    ensures RoundTrip.Stable(m, FirstSourceSourceInfo)
  {
    assert RoundTrip.Stable(m, FalseT);
    var places := [UndefinedMarker, ArrayT(RefT("Place"))];
    assert RoundTrip.Accepted(m, places[0]) == {RoundTrip.UndefinedS};
    assert RoundTrip.Produced(m, places[1]) == {RoundTrip.ArrayS};
    assert RoundTrip.Stable(m, UnionT(places));
    var bias := [UndefinedMarker, RefT("NeutralistBias")];
    assert RoundTrip.Keeps(m, bias[1]);
    assert RoundTrip.Stable(m, UnionT(bias));
  }

  /** `[null, string]`: `string` keeps its input. */
  lemma NullOrStringStable(m: TypeMap)
    ensures RoundTrip.Stable(m, UnionT([NullT, StringMarker]))
  {
    assert RoundTrip.Keeps(m, StringMarker);
  }

  lemma FirstTenEntriesStable(m: TypeMap)
    requires "NeutralistBias" in m && m["NeutralistBias"].EnumT?
    ensures RoundTrip.Stable(m, FirstTenSource) && RoundTrip.Stable(m, SortData)
    ensures RoundTrip.Stable(m, Bias) && RoundTrip.Stable(m, Locality)
  {
    assert RoundTrip.Stable(m, FalseT);
    NullOrStringStable(m);
    BiasStable(m);
  }

  /** `[Date, NeutralistBias, null]`: the enum and `null` keep their input. */
  lemma BiasStable(m: TypeMap)
    requires "NeutralistBias" in m && m["NeutralistBias"].EnumT?
    ensures RoundTrip.Stable(m, Bias)
  {
    assert RoundTrip.Stable(m, FalseT);
    var ms := [DateT, RefT("NeutralistBias"), NullT];
    assert RoundTrip.Keeps(m, ms[1]) && RoundTrip.Keeps(m, ms[2]);
    assert RoundTrip.Stable(m, UnionT(ms));
  }

  /** `[Location, null]`: `null` keeps its input. */
  lemma FirstTenSourceInfoStable(m: TypeMap)
    ensures RoundTrip.Stable(m, FirstTenSourceSourceInfo)
  {
    assert RoundTrip.Stable(m, FalseT);
    NullOrStringStable(m);
    var ms := [RefT("Location"), NullT];
    assert RoundTrip.Keeps(m, ms[1]);
    assert RoundTrip.Stable(m, UnionT(ms));
  }

  /** `[undefined, string]`: `string` keeps its input. */
  lemma ReviewEntriesStable(m: TypeMap)
    ensures RoundTrip.Stable(m, BiasRating) && RoundTrip.Stable(m, Reviewer)
    ensures RoundTrip.Stable(m, Location) && RoundTrip.Stable(m, Owner)
  {
    assert RoundTrip.Stable(m, FalseT);
    assert RoundTrip.Keeps(m, StringMarker);
    assert RoundTrip.Stable(m, UnionT([UndefinedMarker, StringMarker]));
  }

  lemma FeedEntriesStable(m: TypeMap)
    ensures RoundTrip.Stable(m, SpecialFeed) && RoundTrip.Stable(m, Interest)
    ensures RoundTrip.Stable(m, Ownership) && RoundTrip.Stable(m, Source)
  {
    assert RoundTrip.Stable(m, FalseT);
  }

  /** An event that `toEvent` produced comes back unchanged from `eventToJson`,
      and casting it again reproduces it. */
  lemma EventRoundTrip(parseDate: Value -> Option<int>, x: Value, name: string)
    requires RoundTrip.ReparsesDates(parseDate)
    requires CastValue(Table, parseDate, x, RefT(name)).Ok?
    ensures var v := CastValue(Table, parseDate, x, RefT(name)).value;
      && UncastValue(Table, parseDate, v, RefT(name)) == Ok(v)
      && CastValue(Table, parseDate, v, RefT(name)) == Ok(v)
  {
    TableIsValid();
    TableNamesAgree();
    TableIsStable();
    RoundTrip.CastRoundTrip(Table, parseDate, x, RefT(name));
  }

  lemma TableIsValid()
    ensures ValidTypeMap(Table)
  {
  }

  /** Every table name, present or not, casts and uncasts identically. */
  lemma CastEqualsUncastOnTable(parseDate: Value -> Option<int>, val: Value, name: string)
    ensures CastValue(Table, parseDate, val, RefT(name)) == UncastValue(Table, parseDate, val, RefT(name))
  {
    TableIsValid();
    TableNamesAgree();
    CastEqualsUncast(Table, parseDate, val, RefT(name));
  }

  /** `SpecialFeed` declares no field, so it accepts exactly the values with no
      own key, an empty object or a Date instance, and returns an empty object. */
  lemma SpecialFeedAcceptsOnlyEmpty(ctx: Context, val: Value, key: string, parent: string)
    requires ctx.typeMap == Table
    ensures Transform(ctx, val, RefT("SpecialFeed"), key, parent).Ok? <==> (val.Obj? && val.members == []) || val.DateV?
    ensures Transform(ctx, val, RefT("SpecialFeed"), key, parent).Ok? ==> Transform(ctx, val, RefT("SpecialFeed"), key, parent).value == Obj([])
  {
    TableIsValid();
    assert "SpecialFeed" in Table && Table["SpecialFeed"] == SpecialFeed;
    SpecialFeedIn(ctx, val, key, parent);
  }

  lemma SpecialFeedIn(ctx: Context, val: Value, key: string, parent: string)
    requires ValidTypeMap(ctx.typeMap) && "SpecialFeed" in ctx.typeMap && ctx.typeMap["SpecialFeed"] == SpecialFeed
    ensures Transform(ctx, val, RefT("SpecialFeed"), key, parent).Ok? <==> (val.Obj? && val.members == []) || val.DateV?
    ensures Transform(ctx, val, RefT("SpecialFeed"), key, parent).Ok? ==> Transform(ctx, val, RefT("SpecialFeed"), key, parent).value == Obj([])
  {
    RefRule(ctx, val, "SpecialFeed", key, parent);
    var pm := BuildPropMap(SpecialFeed.props, ctx.dir);
    assert pm == [];
    if !(val.Obj? || val.DateV?) {
      NonObjectRejected(ctx, val, RefT("SpecialFeed"), key, parent);
    } else if |Own(val)| > 0 {
      UndeclaredKeyRejected(ctx, val, SpecialFeed, "SpecialFeed", key, parent, 0);
    } else {
      ObjectOutput(ctx, val, SpecialFeed, "SpecialFeed", key, parent);
    }
  }
}
