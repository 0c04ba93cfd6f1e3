/**
 * The site-information controller's rules: the day range of the daily
 * visit statistics, the visit aggregations of the history report, the
 * history counters copied into the site information, the waifu endpoints and
 * the third-party login status.
 *
 * Database queries and caches are inputs: the records they return, or a
 * `Failed` outcome where the controller catches an exception.
 */
module WebInfo {
  import opened Common
  import opened Text

  const DEFAULT_DAYS := 7
  const MAX_DAYS := 365

  /** getDailyVisitStats: missing or non-positive means 7 days, more than 365 means 365. */
  function ClampDays(days: Option<int>): (d: int)
    ensures 1 <= d <= MAX_DAYS
    ensures days.None? || days.value <= 0 ==> d == DEFAULT_DAYS
    ensures days.Some? && days.value > MAX_DAYS ==> d == MAX_DAYS
    ensures days.Some? && 0 < days.value <= MAX_DAYS ==> d == days.value
  {
    if days.None? || days.value <= 0 then DEFAULT_DAYS
    else if days.value > MAX_DAYS then MAX_DAYS
    else days.value
  }

  /** A value already in range is kept, so clamping twice is clamping once. */
  lemma ClampDaysIdempotent(days: Option<int>)
    ensures ClampDays(Some(ClampDays(days))) == ClampDays(days)
  {
  }

  /** The present values, in order (a stream's filter(Objects::nonNull)). */
  function Present(s: seq<Option<string>>): (r: seq<string>)
    ensures forall x :: x in r <==> Some(x) in s
  {
    if s == [] then []
    else
      assert s == [s[0]] + s[1..];
      (if s[0].Some? then [s[0].value] else []) + Present(s[1..])
  }

  /** A stream's distinct(): the first occurrence of every value, in order. */
  function Distinct(s: seq<string>): (r: seq<string>)
    ensures forall x :: x in r <==> x in s
    ensures NoDuplicates(r)
  {
    if s == [] then []
    else
      var d := Distinct(s[..|s| - 1]);
      assert s == s[..|s| - 1] + [s[|s| - 1]];
      if s[|s| - 1] in d then d else d + [s[|s| - 1]]
  }

  /** The set of the present values. */
  function PresentSet(s: seq<Option<string>>): set<string>
  {
    set o | o in s && o.Some? :: o.value
  }

  /** Counting the distinct present values counts the set of present values. */
  lemma DistinctCount(s: seq<Option<string>>)
    ensures |Distinct(Present(s))| == |PresentSet(s)|
  {
    var d := Distinct(Present(s));
    NoDuplicatesCard(d);
    assert (set x | x in d) == PresentSet(s);
  }

  /** A visit record of today, as the history query selects it. */
  datatype HistoryInfo = HistoryInfo(ip: Option<string>, userId: Option<int>, province: Option<string>)

  /** A row of the 24-hour statistics; the row itself may be null. */
  datatype HourRow = HourRow(ip: Option<string>)

  function RowIp(row: Option<HourRow>): Option<string>
  {
    if row.Some? then row.value.ip else None
  }

  function RecordIp(r: HistoryInfo): Option<string>
  {
    r.ip
  }

  function RecordProvince(r: HistoryInfo): Option<string>
  {
    r.province
  }

  /** ip_count_yest: the distinct IPs of the 24-hour list, 0 when the list is null or empty. */
  function IpCountYest(hour: Option<seq<Option<HourRow>>>): nat
  {
    if hour.None? || hour.value == [] then 0
    else |Distinct(Present(MapSeq(hour.value, RowIp)))|
  }

  /** ip_count_today: the distinct IPs among today's records, 0 when the query gave null. */
  function IpCountToday(today: Option<seq<HistoryInfo>>): nat
  {
    if today.None? then 0 else |Distinct(Present(MapSeq(today.value, RecordIp)))|
  }

  /** Both IP counts are the number of different non-null IPs. */
  lemma IpCountsAreDistinctIps(hour: Option<seq<Option<HourRow>>>, today: Option<seq<HistoryInfo>>)
    ensures hour.Some? ==> IpCountYest(hour) == |PresentSet(MapSeq(hour.value, RowIp))|
    ensures today.Some? ==> IpCountToday(today) == |PresentSet(MapSeq(today.value, RecordIp))|
  {
    if hour.Some? {
      DistinctCount(MapSeq(hour.value, RowIp));
      if hour.value == [] {
        assert PresentSet(MapSeq(hour.value, RowIp)) == {};
      }
    }
    if today.Some? {
      DistinctCount(MapSeq(today.value, RecordIp));
    }
  }

  /** One province with the number of today's records from it. */
  function ProvinceEntry(provinces: seq<string>, p: string): (string, nat)
  {
    (p, CountWhere(provinces, x => x == p))
  }

  function EntryCount(e: (string, nat)): int
  {
    e.1
  }

  /** groupingBy(province, counting()): one entry per distinct non-null province, in order of first appearance. */
  function ProvinceGroups(today: seq<HistoryInfo>): seq<(string, nat)>
  {
    var provinces := Present(MapSeq(today, RecordProvince));
    MapSeq(Distinct(provinces), p => ProvinceEntry(provinces, p))
  }

  /** province_today: the groups sorted by count, largest first; an empty list when the query gave null. */
  function ProvinceToday(today: Option<seq<HistoryInfo>>): seq<(string, nat)>
  {
    if today.None? then [] else SortDesc(ProvinceGroups(today.value), EntryCount)
  }

  /** province_today is sorted by count, largest first, and is a reordering of the groups. */
  lemma ProvinceTodaySorted(today: seq<HistoryInfo>)
    ensures SortedDesc(ProvinceToday(Some(today)), EntryCount)
    ensures multiset(ProvinceToday(Some(today))) == multiset(ProvinceGroups(today))
  {
  }

  /** Each entry of province_today names a province that occurs and carries the number of records from it. */
  lemma ProvinceTodayCounts(today: seq<HistoryInfo>, i: int)
    requires 0 <= i < |ProvinceToday(Some(today))|
    ensures var e := ProvinceToday(Some(today))[i];
      var provinces := Present(MapSeq(today, RecordProvince));
      e.0 in provinces && e.1 == CountWhere(provinces, x => x == e.0)
  {
    var r := ProvinceToday(Some(today));
    assert r[i] in multiset(r);
    assert r[i] in ProvinceGroups(today);
  }

  /** Every province that occurs among today's records has an entry in province_today. */
  lemma ProvinceTodayComplete(today: seq<HistoryInfo>, p: string)
    requires p in Present(MapSeq(today, RecordProvince))
    ensures exists i :: 0 <= i < |ProvinceToday(Some(today))| && ProvinceToday(Some(today))[i].0 == p
  {
    var r := ProvinceToday(Some(today));
    var provinces := Present(MapSeq(today, RecordProvince));
    var groups := ProvinceGroups(today);
    var keys := Distinct(provinces);
    var k :| 0 <= k < |keys| && keys[k] == p;
    assert groups[k] == ProvinceEntry(provinces, p);
    assert groups[k] in multiset(r);
    var i :| 0 <= i < |r| && r[i] == groups[k];
  }

  /** The provinces of the groups are all different, so no province is listed twice. */
  lemma ProvinceGroupsDistinct(today: seq<HistoryInfo>)
    ensures forall i, j :: 0 <= i < j < |ProvinceGroups(today)| ==> ProvinceGroups(today)[i].0 != ProvinceGroups(today)[j].0
  {
  }

  /** What the history report holds when the cache or a query fails. */
  datatype HistoryReport = HistoryReport(ipCountYest: nat, ipCountToday: nat, provinceToday: seq<(string, nat)>)

  /** getHistoryInfo's three aggregations; a failure anywhere gives the all-zero default report. */
  function HistoryInfoReport(data: Result<(Option<seq<Option<HourRow>>>, Option<seq<HistoryInfo>>), string>): (r: HistoryReport)
    ensures data.Failure? ==> r == HistoryReport(0, 0, [])
    ensures data.Success? && data.value.1.None? ==> r.ipCountToday == 0 && r.provinceToday == []
  {
    if data.Failure? then HistoryReport(0, 0, [])
    else
      var (hour, today) := data.value;
      HistoryReport(IpCountYest(hour), IpCountToday(today), ProvinceToday(today))
  }

  /** The cached history statistics as addHistoryStatsToWebInfo reads them. */
  datatype StatsFetch =
    | FetchFailed
    | NoStats
    | Stats(historyCount: Option<int>, hourStats: Option<nat>)

  /** The site information's two history counters (shown as strings). */
  class SiteInfo {
    var historyAllCount: Option<string>
    var historyDayCount: Option<string>

    constructor (allCount: Option<string>, dayCount: Option<string>)
      ensures historyAllCount == allCount && historyDayCount == dayCount
    {
      historyAllCount := allCount;
      historyDayCount := dayCount;
    }

    /**
     * addHistoryStatsToWebInfo: missing statistics or a failure set both
     * counters to "0"; otherwise each counter present in the statistics is
     * copied (the hour list by its size) and a missing one is left as it was.
     */
    method AddHistoryStats(fetch: StatsFetch)
      modifies this
      ensures fetch.FetchFailed? || fetch.NoStats? ==> historyAllCount == Some("0") && historyDayCount == Some("0")
      ensures fetch.Stats? ==>
        historyAllCount == (if fetch.historyCount.Some? then Some(IntToDecimal(fetch.historyCount.value)) else old(historyAllCount))
      ensures fetch.Stats? ==>
        historyDayCount == (if fetch.hourStats.Some? then Some(NatToDecimal(fetch.hourStats.value)) else old(historyDayCount))
    {
      if fetch.Stats? {
        if fetch.historyCount.Some? {
          historyAllCount := Some(IntToDecimal(fetch.historyCount.value));
        }
        if fetch.hourStats.Some? {
          historyDayCount := Some(NatToDecimal(fetch.hourStats.value));
        }
      } else {
        historyAllCount := Some("0");
        historyDayCount := Some("0");
      }
    }
  }

  /** The cached site information, as far as the waifu endpoints read it. */
  datatype WebInfoView = WebInfoView(id: Option<int>, enableWaifu: Option<bool>, waifuJson: Option<string>)

  const NO_WEB_INFO := "网站信息不存在"

  /** getWaifuStatus: the flag (false when unset) and the id, or a failure when there is no site information. */
  function WaifuStatus(webInfo: Option<WebInfoView>): (r: Result<(bool, Option<int>), string>)
    ensures webInfo.None? <==> r == Failure(NO_WEB_INFO)
    ensures webInfo.Some? ==> r.Success? && r.value.1 == webInfo.value.id
    ensures webInfo.Some? ==> (r.value.0 <==> webInfo.value.enableWaifu == Some(true))
  {
    if webInfo.None? then Failure(NO_WEB_INFO)
    else
      var enable := if webInfo.value.enableWaifu.None? then false else webInfo.value.enableWaifu.value;
      Success((enable, webInfo.value.id))
  }

  /** getWaifuJson: the cached JSON when it has text, otherwise "{}". */
  function WaifuJson(webInfo: Option<WebInfoView>): (r: string)
    ensures webInfo.Some? && HasText(webInfo.value.waifuJson) ==> r == webInfo.value.waifuJson.value
    ensures !(webInfo.Some? && HasText(webInfo.value.waifuJson)) ==> r == "{}"
  {
    if webInfo.Some? && HasText(webInfo.value.waifuJson) then webInfo.value.waifuJson.value else "{}"
  }

  /** A third-party login configuration; the two flags are boxed Booleans that may be null. */
  datatype OauthConfig = OauthConfig(platformType: string, enabled: Option<bool>, globalEnabled: Option<bool>,
                                     platformName: string, sortOrder: int)

  /** Values of the login-status map. */
  datatype StatusValue =
    | Flag(b: bool)
    | PlatformFlag(enabled: bool)
    | PlatformStatus(enabled: bool, platformName: string, sortOrder: int)

  /**
   * `enabled && globalEnabled` on boxed Booleans: None where unboxing a null
   * throws; globalEnabled is not read when enabled is false.
   */
  function BothEnabled(c: OauthConfig): (r: Option<bool>)
    ensures r == Some(true) <==> c.enabled == Some(true) && c.globalEnabled == Some(true)
  {
    if c.enabled.None? then None
    else if !c.enabled.value then Some(false)
    else if c.globalEnabled.None? then None
    else Some(c.globalEnabled.value)
  }

  /** Some configuration has the platform type. */
  predicate AnyOfType(configs: seq<OauthConfig>, t: string)
  {
    exists i :: 0 <= i < |configs| && configs[i].platformType == t
  }

  /** The status map after the per-platform entries of `configs` are put in order, or None once a null flag throws. */
  function PutPlatforms(status: map<string, StatusValue>, configs: seq<OauthConfig>): Option<map<string, StatusValue>>
    decreases |configs|
  {
    if configs == [] then Some(status)
    else
      var c := configs[0];
      if BothEnabled(c).None? then None
      else PutPlatforms(status[c.platformType := PlatformStatus(BothEnabled(c).value, c.platformName, c.sortOrder)], configs[1..])
  }

  /**
   * getThirdLoginStatus: "enable" says whether any configuration is active;
   * with a provider named, that provider's entry says whether an active
   * configuration has its type; otherwise every configuration puts its
   * platform's entry. None is the failure reply.
   */
  method ThirdLoginStatus(provider: Option<string>, allConfigs: seq<OauthConfig>, activeConfigs: seq<OauthConfig>)
    returns (status: Option<map<string, StatusValue>>)
    ensures status == ThirdLoginStatusOf(provider, allConfigs, activeConfigs)
  {
    var s: map<string, StatusValue> := map["enable" := Flag(activeConfigs != [])];
    if provider.Some? && JavaTrim(provider.value) != [] {
      var platformEnabled := AnyOfType(activeConfigs, provider.value);
      return Some(s[provider.value := PlatformFlag(platformEnabled)]);
    }
    var i := 0;
    while i < |allConfigs|
      invariant 0 <= i <= |allConfigs|
      invariant PutPlatforms(s, allConfigs[i..]) == ThirdLoginStatusOf(provider, allConfigs, activeConfigs)
    {
      var c := allConfigs[i];
      assert allConfigs[i..][1..] == allConfigs[i + 1..];
      var both := BothEnabled(c);
      if both.None? {
        return None;
      }
      s := s[c.platformType := PlatformStatus(both.value, c.platformName, c.sortOrder)];
      i := i + 1;
    }
    status := Some(s);
  }

  /** The reply getThirdLoginStatus builds. */
  function ThirdLoginStatusOf(provider: Option<string>, allConfigs: seq<OauthConfig>, activeConfigs: seq<OauthConfig>)
    : Option<map<string, StatusValue>>
  {
    if provider.Some? && JavaTrim(provider.value) != [] then Some(OneProviderStatus(provider.value, activeConfigs))
    else PutPlatforms(map["enable" := Flag(activeConfigs != [])], allConfigs)
  }

  /** The reply when a provider is named. */
  function OneProviderStatus(provider: string, activeConfigs: seq<OauthConfig>): map<string, StatusValue>
  {
    map["enable" := Flag(activeConfigs != [])][provider := PlatformFlag(AnyOfType(activeConfigs, provider))]
  }

  /** A type no configuration has keeps its entry, or stays absent. */
  lemma {:induction false} PutPlatformsOther(status: map<string, StatusValue>, configs: seq<OauthConfig>, t: string)
    requires PutPlatforms(status, configs).Some?
    requires !AnyOfType(configs, t)
    ensures t in PutPlatforms(status, configs).value <==> t in status
    ensures t in status ==> PutPlatforms(status, configs).value[t] == status[t]
    decreases |configs|
  {
    if configs != [] {
      var c := configs[0];
      assert c.platformType != t;
      PutPlatformsOther(status[c.platformType := PlatformStatus(BothEnabled(c).value, c.platformName, c.sortOrder)], configs[1..], t);
    }
  }

  /** The last configuration of a platform type decides its entry. */
  lemma {:induction false} PutPlatformsLast(status: map<string, StatusValue>, configs: seq<OauthConfig>, i: int)
    requires PutPlatforms(status, configs).Some?
    requires 0 <= i < |configs|
    requires forall j :: i < j < |configs| ==> configs[j].platformType != configs[i].platformType
    ensures configs[i].platformType in PutPlatforms(status, configs).value
    ensures PutPlatforms(status, configs).value[configs[i].platformType]
      == PlatformStatus(configs[i].enabled == Some(true) && configs[i].globalEnabled == Some(true),
                        configs[i].platformName, configs[i].sortOrder)
    decreases |configs|
  {
    var c := configs[0];
    var next := status[c.platformType := PlatformStatus(BothEnabled(c).value, c.platformName, c.sortOrder)];
    if i == 0 {
      PutPlatformsOther(next, configs[1..], c.platformType);
    } else {
      PutPlatformsLast(next, configs[1..], i - 1);
    }
  }

  /** Without a provider, "enable" is true iff some configuration is active, unless a platform is itself called "enable". */
  lemma ThirdLoginStatusEnableFlag(allConfigs: seq<OauthConfig>, activeConfigs: seq<OauthConfig>)
    requires ThirdLoginStatusOf(None, allConfigs, activeConfigs).Some?
    requires !AnyOfType(allConfigs, "enable")
    ensures "enable" in ThirdLoginStatusOf(None, allConfigs, activeConfigs).value
    ensures ThirdLoginStatusOf(None, allConfigs, activeConfigs).value["enable"] == Flag(activeConfigs != [])
  {
    PutPlatformsOther(map["enable" := Flag(activeConfigs != [])], allConfigs, "enable");
  }

  /** Without a provider, a platform is enabled iff both flags of its last configuration are true. */
  lemma ThirdLoginStatusPlatform(allConfigs: seq<OauthConfig>, activeConfigs: seq<OauthConfig>, i: int)
    requires ThirdLoginStatusOf(None, allConfigs, activeConfigs).Some?
    requires 0 <= i < |allConfigs|
    requires forall j :: i < j < |allConfigs| ==> allConfigs[j].platformType != allConfigs[i].platformType
    ensures allConfigs[i].platformType in ThirdLoginStatusOf(None, allConfigs, activeConfigs).value
    ensures var e := ThirdLoginStatusOf(None, allConfigs, activeConfigs).value[allConfigs[i].platformType];
      e.PlatformStatus? && (e.enabled <==> allConfigs[i].enabled == Some(true) && allConfigs[i].globalEnabled == Some(true))
  {
    PutPlatformsLast(map["enable" := Flag(activeConfigs != [])], allConfigs, i);
  }

  /** A null flag in any configuration makes the all-platforms reply a failure. */
  lemma {:induction false} NullFlagFails(status: map<string, StatusValue>, configs: seq<OauthConfig>, i: int)
    requires 0 <= i < |configs| && BothEnabled(configs[i]).None?
    ensures PutPlatforms(status, configs).None?
    decreases |configs|
  {
    if i > 0 {
      var c := configs[0];
      if BothEnabled(c).Some? {
        NullFlagFails(status[c.platformType := PlatformStatus(BothEnabled(c).value, c.platformName, c.sortOrder)], configs[1..], i - 1);
      }
    }
  }

  /**
   * With a provider named, the reply is OneProviderStatus: the provider's
   * entry says whether an active configuration has that type.
   */
  lemma ThirdLoginStatusOneProvider(provider: string, allConfigs: seq<OauthConfig>, activeConfigs: seq<OauthConfig>)
    requires JavaTrim(provider) != []
    ensures ThirdLoginStatusOf(Some(provider), allConfigs, activeConfigs) == Some(OneProviderStatus(provider, activeConfigs))
    ensures var r := OneProviderStatus(provider, activeConfigs);
      && r[provider] == PlatformFlag(AnyOfType(activeConfigs, provider))
      && (provider != "enable" ==> r["enable"] == Flag(activeConfigs != []))
  {
  }

  /** That reply holds nothing but "enable" and the provider. */
  lemma OneProviderStatusKeys(provider: string, activeConfigs: seq<OauthConfig>)
    ensures OneProviderStatus(provider, activeConfigs).Keys == {"enable", provider}
  {
  }
}
