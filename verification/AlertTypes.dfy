/** The alert types the engines write, their text names, and the per-user preferences
    that read those names back. */
module AlertTypes {
  import opened Common

  datatype Tier = Elevated | High | Saturated

  datatype Metric =
    | Cpu | Memory | Disk | Network | Storage | CloudUsage
    | Cost | ApiLatency | ErrorRate | PodRestart | Security

  datatype AlertType =
    | Tiered(metric: Metric, tier: Tier)
    | NodeFailure
    | ContainerFailure
    | AnomalyDetected
    | FailureRisk
    | ResourceOptimization
    | NewCloudRegions

  /** Types that exclude each other: the three tiers of one metric share a family. */
  function Family(t: AlertType): AlertType {
    match t
    case Tiered(m, _) => Tiered(m, Elevated)
    case _ => t
  }

  predicate IsHttp(t: AlertType) {
    t.Tiered? && (t.metric.ApiLatency? || t.metric.ErrorRate?)
  }

  function Prefix(m: Metric): string {
    match m
    case Cpu => "cpu"
    case Memory => "memory"
    case Disk => "disk"
    case Network => "network"
    case Storage => "storage"
    case CloudUsage => "cloud_usage"
    case Cost => "cost"
    case ApiLatency => "api_latency"
    case ErrorRate => "error_rate"
    case PodRestart => "pod_restart"
    case Security => "security"
  }

  function Suffix(t: Tier): string {
    match t
    case Elevated => "_elevated"
    case High => "_high"
    case Saturated => "_saturated"
  }

  /** The text stored in the alert_type column. */
  function Name(t: AlertType): string {
    match t
    case Tiered(m, tier) => Prefix(m) + Suffix(tier)
    case NodeFailure => "node_failure"
    case ContainerFailure => "container_failure"
    case AnomalyDetected => "anomaly_detected"
    case FailureRisk => "failure_risk"
    case ResourceOptimization => "resource_optimization"
    case NewCloudRegions => "new_cloud_regions_available"
  }

  // ----- reading a name back

  predicate IsTieredCategory(c: string) {
    c == "cpu" || c == "memory" || c == "disk" || c == "network" || c == "storage" ||
    c == "cloud_usage" || c == "cloud_cost" || c == "api_latency" || c == "error_rate" ||
    c == "pod_restart" || c == "security"
  }

  function SimpleCategory(name: string): Option<string> {
    if name == "node_failure" then Some("node_failure")
    else if name == "container_failure" then Some("container_failure")
    else if name == "anomaly_detected" then Some("ai_prediction")
    else if name == "failure_risk" then Some("ai_prediction")
    else if name == "resource_optimization" then Some("resource_optimization")
    else None
  }

  /** The one prefix that differs from its category's name. */
  function Aliased(prefix: string): string {
    if prefix == "cost" then "cloud_cost" else prefix
  }

  /** One turn of the loop over the tier suffixes. */
  function CategoryBySuffix(name: string, suffix: string): Option<string> {
    if EndsWith(name, suffix) then
      var prefix := name[..|name| - |suffix|];
      if IsTieredCategory(Aliased(prefix)) then Some(Aliased(prefix)) else None
    else None
  }

  /** (category, preference key of the tier) of an alert type's text; (None, None) when unknown. */
  function CategoryAndTier(name: string): (Option<string>, Option<string>) {
    if SimpleCategory(name).Some? then (SimpleCategory(name), None)
    else if CategoryBySuffix(name, "_elevated").Some? then (CategoryBySuffix(name, "_elevated"), Some("warning"))
    else if CategoryBySuffix(name, "_high").Some? then (CategoryBySuffix(name, "_high"), Some("critical"))
    else if CategoryBySuffix(name, "_saturated").Some? then (CategoryBySuffix(name, "_saturated"), Some("saturated"))
    else (None, None)
  }

  /** The category a type belongs to in the platform's own taxonomy. */
  function Category(t: AlertType): Option<string> {
    match t
    case Tiered(Cost, _) => Some("cloud_cost")
    case Tiered(m, _) => Some(Prefix(m))
    case NodeFailure => Some("node_failure")
    case ContainerFailure => Some("container_failure")
    case AnomalyDetected => Some("ai_prediction")
    case FailureRisk => Some("ai_prediction")
    case ResourceOptimization => Some("resource_optimization")
    case NewCloudRegions => None
  }

  function TierKey(t: AlertType): Option<string> {
    match t
    case Tiered(_, Elevated) => Some("warning")
    case Tiered(_, High) => Some("critical")
    case Tiered(_, Saturated) => Some("saturated")
    case _ => None
  }

  /** Which of the three suffixes a text has can be read off its last and fifth last character. */
  lemma SuffixCharacters(name: string, tier: Tier)
    requires EndsWith(name, Suffix(tier))
    ensures name[|name| - 1] == (if tier.High? then 'h' else 'd')
    ensures name[|name| - 5] == (match tier case Elevated => 'v' case High => '_' case Saturated => 'r')
  {
  }

  lemma NotSimple(name: string, tier: Tier)
    requires EndsWith(name, Suffix(tier))
    ensures SimpleCategory(name).None?
  {
  }

  /** Any category prefix followed by a tier suffix is read back as that category and tier. */
  lemma SuffixedRecognised(prefix: string, tier: Tier)
    requires IsTieredCategory(Aliased(prefix))
    ensures CategoryAndTier(prefix + Suffix(tier)) == (Some(Aliased(prefix)), TierKey(Tiered(Cpu, tier)))
  {
    var s := Suffix(tier);
    var name := prefix + s;
    assert name[|name| - |s|..] == s && name[..|name| - |s|] == prefix;
    NotSimple(name, tier);
    forall other | EndsWith(name, Suffix(other)) ensures other == tier {
      SuffixCharacters(name, tier);
      SuffixCharacters(name, other);
    }
    assert forall other :: CategoryBySuffix(name, Suffix(other)).Some? ==> other == tier;
    assert CategoryBySuffix(name, Suffix(tier)) == Some(Aliased(prefix));
    assert Suffix(Elevated) == "_elevated" && Suffix(High) == "_high" && Suffix(Saturated) == "_saturated";
  }

  lemma PrefixIsCategory(m: Metric)
    ensures IsTieredCategory(Aliased(Prefix(m)))
    ensures forall tier :: Category(Tiered(m, tier)) == Some(Aliased(Prefix(m)))
  {
  }

  lemma RegionNoticeUnknown()
    ensures CategoryAndTier(Name(NewCloudRegions)) == (None, None)
  {
  }

  /** Every type the platform raises is read back as its own category and tier; only the
      region notice is unknown to the preferences, and unknown names are never gated. */
  lemma NamesRecognised(t: AlertType)
    ensures CategoryAndTier(Name(t)) == (Category(t), TierKey(t))
  {
    match t
    case Tiered(m, tier) =>
      PrefixIsCategory(m);
      SuffixedRecognised(Prefix(m), tier);
    case NewCloudRegions => RegionNoticeUnknown();
    case _ =>
  }

  /** Distinct types never share a text, so a lookup by text finds the type and no other. */
  lemma NameInjective(a: AlertType, b: AlertType)
    requires Name(a) == Name(b)
    ensures a == b
  {
    NamesRecognised(a);
    NamesRecognised(b);
    CategoryDetermines(a, b);
  }

  lemma CategoryDetermines(a: AlertType, b: AlertType)
    requires Category(a) == Category(b) && TierKey(a) == TierKey(b)
    requires !a.Tiered? ==> Name(a) == Name(b)
    ensures a == b
  {
  }

  /** SQL LIKE 'security_%': the underscore stands for any one character. */
  predicate LikeSecurity(name: string) {
    StartsWith(name, "security") && |name| >= 9
  }

  /** The text tests the evaluators use to pick out "their" alerts select exactly the
      metrics they are meant for. */
  lemma TextTestsSelectMetrics(t: AlertType)
    ensures LikeSecurity(Name(t)) <==> t.Tiered? && t.metric.Security?
    ensures StartsWith(Name(t), "api_latency_") || StartsWith(Name(t), "error_rate_") <==> IsHttp(t)
  {
    if t.Tiered? {
      var p, s := Prefix(t.metric), Suffix(t.tier);
      assert s[0] == '_';
      SecurityText(t.metric, s);
      HttpText(t.metric, s);
    } else {
      var c := Name(t)[0];
      assert c == 'n' || c == 'c' || c == 'f' || c == 'r' || (c == 'a' && Name(t)[1] == 'n');
    }
  }

  lemma SecurityText(m: Metric, s: string)
    requires |s| >= 4
    ensures LikeSecurity(Prefix(m) + s) <==> m.Security?
  {
    var name := Prefix(m) + s;
    assert name[0] == Prefix(m)[0] && name[1] == Prefix(m)[1];
    assert m.Security? ==> name[..8] == "security";
  }

  lemma HttpText(m: Metric, s: string)
    requires |s| >= 4 && s[0] == '_'
    ensures StartsWith(Prefix(m) + s, "api_latency_") <==> m.ApiLatency?
    ensures StartsWith(Prefix(m) + s, "error_rate_") <==> m.ErrorRate?
  {
    var name := Prefix(m) + s;
    assert name[0] == Prefix(m)[0];
    assert m.ApiLatency? ==> name[..12] == "api_latency" + "_";
    assert m.ErrorRate? ==> name[..11] == "error_rate" + "_";
  }

  // ----- per-user preferences

  /** One category's switches as stored: absent fields mean "on". */
  datatype Flags = Flags(enabled: Option<bool>, warning: Option<bool>, critical: Option<bool>, saturated: Option<bool>)

  /** The stored JSON: absent, unreadable, or an object whose values may not be objects themselves. */
  datatype StoredValue = NotAnObject | Fields(flags: Flags)
  datatype Stored = Unset | Malformed | Parsed(entries: map<string, StoredValue>)

  const NO_FLAGS := Flags(None, None, None, None)

  function On(flag: Option<bool>): bool { flag != Some(false) }

  predicate TierOn(flags: Flags, key: string) {
    if key == "warning" then On(flags.warning)
    else if key == "critical" then On(flags.critical)
    else On(flags.saturated)
  }

  /** Defaults with every switch on, overlaid by what the user stored. */
  function Overlaid(flags: Flags): Flags {
    Flags(Some(On(flags.enabled)), Some(On(flags.warning)), Some(On(flags.critical)), Some(On(flags.saturated)))
  }

  function StoredFlags(stored: Stored, category: string): Flags {
    if stored.Parsed? && category in stored.entries && stored.entries[category].Fields?
    then stored.entries[category].flags
    else NO_FLAGS
  }

  function Loaded(stored: Stored, categories: seq<string>): map<string, Flags> {
    map c | c in categories :: Overlaid(StoredFlags(stored, c))
  }

  method LoadPreferences(stored: Stored, categories: seq<string>) returns (prefs: map<string, Flags>)
    ensures prefs == Loaded(stored, categories)
  {
    prefs := map c | c in categories :: Overlaid(NO_FLAGS);
    if !stored.Parsed? { return; }
    for i := 0 to |categories|
      invariant prefs.Keys == set c | c in categories
      invariant forall c :: c in categories ==>
        prefs[c] == Overlaid(if c in categories[..i] then StoredFlags(stored, c) else NO_FLAGS)
    {
      var c := categories[i];
      if c in stored.entries && stored.entries[c].Fields? {
        prefs := prefs[c := Overlaid(stored.entries[c].flags)];
      }
    }
  }

  predicate WantsNotification(prefs: map<string, Flags>, name: string) {
    var (category, tier) := CategoryAndTier(name);
    if category.None? || category.value !in prefs then true
    else if !On(prefs[category.value].enabled) then false
    else tier.None? || TierOn(prefs[category.value], tier.value)
  }

  /** All categories, the tiered ones first. */
  const CATEGORIES: seq<string> :=
    ["cpu", "memory", "disk", "network", "storage", "cloud_usage", "cloud_cost", "api_latency", "error_rate",
     "pod_restart", "security", "node_failure", "container_failure", "ai_prediction", "resource_optimization"]

  /** A user's preferences as a decision about alert types: the stored blob loaded over the
      defaults, then looked up by the type's text. */
  predicate Wants(stored: Stored, t: AlertType) {
    WantsNotification(Loaded(stored, CATEGORIES), Name(t))
  }

  /** What the user has stored about one tier of a category. */
  function TierFlag(flags: Flags, tier: Tier): Option<bool> {
    match tier
    case Elevated => flags.warning
    case High => flags.critical
    case Saturated => flags.saturated
  }

  /** The stored preferences say no to the type's category, or to its tier within it. */
  predicate SwitchedOff(stored: Stored, t: AlertType) {
    Category(t).Some? && stored.Parsed? && Category(t).value in stored.entries &&
    match stored.entries[Category(t).value]
    case NotAnObject => false
    case Fields(flags) => flags.enabled == Some(false) || (t.Tiered? && TierFlag(flags, t.tier) == Some(false))
  }

  lemma CategoryListed(t: AlertType)
    requires Category(t).Some?
    ensures Category(t).value in CATEGORIES
  {
    var c := CATEGORIES;
    assert c[0] == "cpu" && c[1] == "memory" && c[2] == "disk" && c[3] == "network" && c[4] == "storage";
    assert c[5] == "cloud_usage" && c[6] == "cloud_cost" && c[7] == "api_latency" && c[8] == "error_rate";
    assert c[9] == "pod_restart" && c[10] == "security" && c[11] == "node_failure";
    assert c[12] == "container_failure" && c[13] == "ai_prediction" && c[14] == "resource_optimization";
  }

  /** Out-of-band delivery is suppressed if and only if the user's stored preferences
      explicitly switch off the alert's category or its tier: missing, unreadable or partial
      preferences never silence anything. */
  lemma SilencedOnlyExplicitly(stored: Stored, t: AlertType)
    ensures !Wants(stored, t) <==> SwitchedOff(stored, t)
  {
    NamesRecognised(t);
    if Category(t).Some? {
      hide CATEGORIES;
      CategoryListed(t);
    }
  }
}
