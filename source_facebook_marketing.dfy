/** The Facebook Marketing source's configuration check and stream
    assembly: fifteen default streams, then one custom Ads Insights stream
    per configured custom insight.

    Streams are recorded by class and keyword arguments; what the stream
    classes do with them, and the network calls behind `API(...)`, are not
    part of this model. Dates are timestamps. */
module FacebookMarketingSource {
  import opened Wrappers

  /** The Marketing API handle, built from the account id and the access token. */
  datatype Api = Api(accountId: string, accessToken: string)

  /** One entry of `custom_insights`. */
  datatype InsightConfig = InsightConfig(name: string, fields: seq<string>, breakdowns: seq<string>, actionBreakdowns: seq<string>)

  /** The parsed connector configuration. */
  datatype ConnectorConfig = ConnectorConfig(
    accountId: string,
    accessToken: string,
    startDate: int,
    endDate: int,
    includeDeleted: bool,
    fetchThumbnailImages: bool,
    customInsights: Option<seq<InsightConfig>>)

  /** The stream classes. */
  datatype StreamKind =
    | AdAccount | AdSets | Ads | AdCreatives
    | AdsInsights | AdsInsightsAgeAndGender | AdsInsightsCountry | AdsInsightsRegion
    | AdsInsightsDma | AdsInsightsPlatformAndDevice | AdsInsightsActionType
    | Campaigns | Images | Videos | Activities

  /** A keyword argument's value. */
  datatype Arg = ApiArg(api: Api) | DateArg(timestamp: int) | BoolArg(flag: bool) | StrArg(text: string) | ListArg(items: seq<string>)

  type Kwargs = map<string, Arg>

  /** A stream instance: its class and the keyword arguments it was built with. */
  datatype Stream = Stream(kind: StreamKind, kwargs: Kwargs)

  datatype CheckError = ValueError(message: string)

  const DateOrderMessage := "end_date must be equal or after start_date."

  /** The classes of the default streams, in the order `streams` lists them. */
  const DefaultKinds: seq<StreamKind> := [
    AdAccount, AdSets, Ads, AdCreatives,
    AdsInsights, AdsInsightsAgeAndGender, AdsInsightsCountry, AdsInsightsRegion,
    AdsInsightsDma, AdsInsightsPlatformAndDevice, AdsInsightsActionType,
    Campaigns, Images, Videos, Activities]

  // ---------------------------------------------------------------------
  // check_connection

  /** `check_connection`: a config whose end date precedes its start date is
      rejected; any other one is accepted with no error. */
  function CheckConnection(config: ConnectorConfig): (r: Result<(bool, Option<string>), CheckError>)
    ensures r.Ok? <==> config.startDate <= config.endDate
    ensures r.Ok? ==> r.value == (true, None)
    ensures r.Err? ==> r.error == ValueError(DateOrderMessage)
  {
    if config.endDate < config.startDate then Err(ValueError(DateOrderMessage))
    else Ok((true, None))
  }

  // ---------------------------------------------------------------------
  // De-duplication: list(set(xs))

  predicate NoDuplicates(xs: seq<string>) {
    forall i, j :: 0 <= i < j < |xs| ==> xs[i] != xs[j]
  }

  /** The elements of `xs`, each once. Python's `list(set(xs))` leaves their
      order to the set's hashing; this model keeps the last occurrence of each. */
  function Unique(xs: seq<string>): (r: seq<string>)
    ensures forall x :: x in r <==> x in xs
    ensures NoDuplicates(r)
    ensures |r| <= |xs|
  {
    if xs == [] then []
    else if xs[0] in xs[1..] then Unique(xs[1..])
    else [xs[0]] + Unique(xs[1..])
  }

  // ---------------------------------------------------------------------
  // streams

  /** The keyword arguments shared by the insights streams. */
  function InsightsArgs(config: ConnectorConfig, api: Api): (args: Kwargs)
    ensures args.Keys == {"api", "start_date", "end_date"}
    ensures args["api"] == ApiArg(api)
    ensures args["start_date"] == DateArg(config.startDate) && args["end_date"] == DateArg(config.endDate)
  {
    map["api" := ApiArg(api), "start_date" := DateArg(config.startDate), "end_date" := DateArg(config.endDate)]
  }

  /** The keyword arguments of the streams filtered by date and deletion state. */
  function DatedArgs(config: ConnectorConfig, api: Api): Kwargs {
    map["api" := ApiArg(api), "start_date" := DateArg(config.startDate), "end_date" := DateArg(config.endDate),
        "include_deleted" := BoolArg(config.includeDeleted)]
  }

  /** The fifteen default streams, in the source's order. */
  function DefaultStreams(config: ConnectorConfig, api: Api): seq<Stream> {
    var insightsArgs := InsightsArgs(config, api);
    var datedArgs := DatedArgs(config, api);
    [
      Stream(AdAccount, map["api" := ApiArg(api)]),
      Stream(AdSets, datedArgs),
      Stream(Ads, datedArgs),
      Stream(AdCreatives, map["api" := ApiArg(api), "fetch_thumbnail_images" := BoolArg(config.fetchThumbnailImages)]),
      Stream(AdsInsights, insightsArgs),
      Stream(AdsInsightsAgeAndGender, insightsArgs),
      Stream(AdsInsightsCountry, insightsArgs),
      Stream(AdsInsightsRegion, insightsArgs),
      Stream(AdsInsightsDma, insightsArgs),
      Stream(AdsInsightsPlatformAndDevice, insightsArgs),
      Stream(AdsInsightsActionType, insightsArgs),
      Stream(Campaigns, datedArgs),
      Stream(Images, datedArgs),
      Stream(Videos, datedArgs),
      Stream(Activities, datedArgs)
    ]
  }

  /** The keyword arguments after one iteration of the custom-insights loop
      has overwritten its four keys. */
  function WithInsight(args: Kwargs, insight: InsightConfig): Kwargs {
    args["name" := StrArg("Custom" + insight.name)]
        ["fields" := ListArg(Unique(insight.fields))]
        ["breakdowns" := ListArg(Unique(insight.breakdowns))]
        ["action_breakdowns" := ListArg(Unique(insight.actionBreakdowns))]
  }

  /** The custom Ads Insights stream built for one insight. */
  function CustomStream(args: Kwargs, insight: InsightConfig): Stream {
    Stream(AdsInsights, WithInsight(args, insight))
  }

  /** The custom streams for `insights`, in insight order. */
  function CustomStreams(args: Kwargs, insights: seq<InsightConfig>): seq<Stream> {
    if insights == [] then []
    else CustomStreams(args, insights[..|insights| - 1]) + [CustomStream(args, insights[|insights| - 1])]
  }

  /** Python's `not insights`: no list, or an empty one. */
  predicate NoInsights(insights: Option<seq<InsightConfig>>) {
    insights.None? || insights.value == []
  }

  /** What `_update_insights_streams` returns. */
  function UpdatedStreams(insights: Option<seq<InsightConfig>>, args: Kwargs, streams: seq<Stream>): seq<Stream> {
    if NoInsights(insights) then streams else streams + CustomStreams(args, insights.value)
  }

  /** What `streams` returns. */
  function AllStreams(config: ConnectorConfig): seq<Stream> {
    var api := Api(config.accountId, config.accessToken);
    UpdatedStreams(config.customInsights, InsightsArgs(config, api), DefaultStreams(config, api))
  }

  /** `_update_insights_streams`: the loop overwrites four keys of the shared
      `args` dict for each insight and appends an Ads Insights stream built
      from it. `argsAfter` is the dict as the caller sees it afterwards. */
  method UpdateInsightsStreams(insights: Option<seq<InsightConfig>>, args: Kwargs, streams: seq<Stream>)
    returns (result: seq<Stream>, argsAfter: Kwargs)
    ensures result == UpdatedStreams(insights, args, streams)
    ensures NoInsights(insights) ==> argsAfter == args
    ensures !NoInsights(insights) ==> argsAfter == WithInsight(args, insights.value[|insights.value| - 1])
  {
    if insights.None? || insights.value == [] {
      return streams, args;
    }
    var all := insights.value;
    var customStreams: seq<Stream> := [];
    argsAfter := args;
    for i := 0 to |all|
      invariant customStreams == CustomStreams(args, all[..i])
      invariant i == 0 ==> argsAfter == args
      invariant i > 0 ==> argsAfter == WithInsight(args, all[i - 1])
    {
      var insight := all[i];
      ghost var before := argsAfter;
      argsAfter := argsAfter["name" := StrArg("Custom" + insight.name)];
      argsAfter := argsAfter["fields" := ListArg(Unique(insight.fields))];
      argsAfter := argsAfter["breakdowns" := ListArg(Unique(insight.breakdowns))];
      argsAfter := argsAfter["action_breakdowns" := ListArg(Unique(insight.actionBreakdowns))];
      if i > 0 {
        OverwriteForgetsPrevious(args, all[i - 1], insight);
      }
      assert argsAfter == WithInsight(before, insight);
      assert all[..i + 1][..i] == all[..i];
      customStreams := customStreams + [Stream(AdsInsights, argsAfter)];
    }
    assert all[..|all|] == all;
    result := streams + customStreams;
  }

  /** `streams`: the default streams, then the custom insights streams. */
  method Streams(config: ConnectorConfig) returns (result: seq<Stream>)
    ensures result == AllStreams(config)
  {
    var api := Api(config.accountId, config.accessToken);
    var insightsArgs := InsightsArgs(config, api);
    var streams := DefaultStreams(config, api);
    result, insightsArgs := UpdateInsightsStreams(config.customInsights, insightsArgs, streams);
  }

  // ---------------------------------------------------------------------
  // Properties

  /** Each iteration overwrites the same four keys, so what an earlier
      iteration wrote does not survive into a later stream. */
  lemma OverwriteForgetsPrevious(args: Kwargs, earlier: InsightConfig, later: InsightConfig)
    ensures WithInsight(WithInsight(args, earlier), later) == WithInsight(args, later)
  {
  }

  /** The custom streams correspond one to one, in order, to the insights. */
  lemma {:induction false} CustomStreamsAt(args: Kwargs, insights: seq<InsightConfig>)
    ensures |CustomStreams(args, insights)| == |insights|
    ensures forall i :: 0 <= i < |insights| ==> CustomStreams(args, insights)[i] == CustomStream(args, insights[i])
  {
    if insights != [] {
      var init := insights[..|insights| - 1];
      CustomStreamsAt(args, init);
      assert forall i :: 0 <= i < |init| ==> insights[i] == init[i];
    }
  }

  /** A custom stream is an Ads Insights stream named "Custom" + the
      insight's name, whose field, breakdown and action-breakdown lists hold
      the insight's elements once each; every other argument is the shared one. */
  lemma CustomStreamShape(args: Kwargs, insight: InsightConfig)
    ensures CustomStream(args, insight).kind == AdsInsights
    ensures CustomStream(args, insight).kwargs.Keys == args.Keys + {"name", "fields", "breakdowns", "action_breakdowns"}
    ensures CustomStream(args, insight).kwargs["name"] == StrArg("Custom" + insight.name)
    ensures var f := CustomStream(args, insight).kwargs["fields"];
      f.ListArg? && (forall x :: x in f.items <==> x in insight.fields) && NoDuplicates(f.items)
    ensures var b := CustomStream(args, insight).kwargs["breakdowns"];
      b.ListArg? && (forall x :: x in b.items <==> x in insight.breakdowns) && NoDuplicates(b.items)
    ensures var ab := CustomStream(args, insight).kwargs["action_breakdowns"];
      ab.ListArg? && (forall x :: x in ab.items <==> x in insight.actionBreakdowns) && NoDuplicates(ab.items)
    ensures forall k :: k in args && k !in {"name", "fields", "breakdowns", "action_breakdowns"} ==>
      CustomStream(args, insight).kwargs[k] == args[k]
  {
  }

  /** With no custom insights the streams come back unchanged; otherwise the
      original streams keep their places and one custom stream per insight
      follows, in insight order. */
  lemma UpdatedStreamsLayout(insights: Option<seq<InsightConfig>>, args: Kwargs, streams: seq<Stream>)
    ensures NoInsights(insights) ==> UpdatedStreams(insights, args, streams) == streams
    ensures !NoInsights(insights) ==>
      var r := UpdatedStreams(insights, args, streams);
      |r| == |streams| + |insights.value| &&
      r[..|streams|] == streams &&
      forall i :: 0 <= i < |insights.value| ==> r[|streams| + i] == CustomStream(args, insights.value[i])
  {
    if !NoInsights(insights) {
      CustomStreamsAt(args, insights.value);
    }
  }

  /** The default streams: fifteen, of the listed classes in the listed order. */
  lemma DefaultStreamsLayout(config: ConnectorConfig, api: Api)
    ensures |DefaultStreams(config, api)| == |DefaultKinds| == 15
    ensures forall i :: 0 <= i < 15 ==> DefaultStreams(config, api)[i].kind == DefaultKinds[i]
    ensures DefaultStreams(config, api)[0].kind == AdAccount && DefaultStreams(config, api)[14].kind == Activities
  {
  }

  /** `streams` lists the fifteen default streams first, then one custom
      Ads Insights stream per configured insight; nothing else. */
  lemma AllStreamsLayout(config: ConnectorConfig)
    ensures var n := if NoInsights(config.customInsights) then 0 else |config.customInsights.value|;
      var r := AllStreams(config);
      |r| == 15 + n &&
      (forall i :: 0 <= i < 15 ==> r[i].kind == DefaultKinds[i]) &&
      (forall i :: 15 <= i < |r| ==> r[i].kind == AdsInsights && "name" in r[i].kwargs)
  {
    var api := Api(config.accountId, config.accessToken);
    var args := InsightsArgs(config, api);
    DefaultStreamsLayout(config, api);
    UpdatedStreamsLayout(config.customInsights, args, DefaultStreams(config, api));
    if !NoInsights(config.customInsights) {
      var r := AllStreams(config);
      forall i | 15 <= i < |r| ensures r[i].kind == AdsInsights && "name" in r[i].kwargs {
        assert r[15 + (i - 15)] == CustomStream(args, config.customInsights.value[i - 15]);
      }
    }
  }
}
