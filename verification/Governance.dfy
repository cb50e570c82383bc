/**
  The metric governance contract: governed dimensions with their closed vocabularies, the registry
  of metrics, the schema guard, and the cardinality ceiling.
 */
module Governance {
  import opened Wrappers
  import opened Histograms

  datatype Dim = Team | Route | ModelFamily | Env | Outcome | ErrorCategory | ProviderRegion | Dimension
               | Ungoverned(key: string)

  // The registered label values, one constructor each, and any other text.
  datatype Label =
    | Other | Unknown | Unattributed
    | AdvisorChat | Kyc | DevAgent | DigestBot | Research | Marketing
    | AdvisorChatTurn | DigestBotSummary | DevAgentTask
    | ClaudeSonnet | ClaudeHaiku | ClaudeOpus | Gpt5 | Gpt5Mini | Gpt4o
    | Prod | Staging | Dev
    | Success | Error
    | Throttling | Timeout | ProviderError | Auth | InvalidRequest | ContentFilter
    | BedrockEu | BedrockUs | ExternalZdr
    | TeamName | RouteName | ModelFamilyName | EnvName | ProviderRegionName
    | FreeText(text: string)

  const TEAMS: seq<Label> := [AdvisorChat, Kyc, DevAgent, DigestBot, Research, Marketing]
  const ROUTES: seq<Label> := [AdvisorChatTurn, DigestBotSummary, DevAgentTask]

  // How the registered teams and routes are spelled.
  function Spelling(value: Label): string {
    match value
    case AdvisorChat => "AdvisorChat"
    case Kyc => "KYC"
    case DevAgent => "DevAgent"
    case DigestBot => "DigestBot"
    case Research => "Research"
    case Marketing => "Marketing"
    case AdvisorChatTurn => "advisorchat-turn"
    case DigestBotSummary => "digestbot-summary"
    case DevAgentTask => "devagent-task"
    case _ => ""
  }

  function Vocabulary(d: Dim): set<Label> {
    match d
    case Team => {AdvisorChat, Kyc, DevAgent, DigestBot, Research, Marketing, Other, Unattributed}
    case Route => {AdvisorChatTurn, DigestBotSummary, DevAgentTask, Other}
    case ModelFamily => {ClaudeSonnet, ClaudeHaiku, ClaudeOpus, Gpt5, Gpt5Mini, Gpt4o, Other}
    case Env => {Prod, Staging, Dev, Other}
    case Outcome => {Success, Error}
    case ErrorCategory =>
      {Throttling, Timeout, ProviderError, Auth, InvalidRequest, ContentFilter, Unknown}
    case ProviderRegion => {BedrockEu, BedrockUs, ExternalZdr, Other}
    case Dimension => {TeamName, RouteName, ModelFamilyName, EnvName, ProviderRegionName}
    case Ungoverned(_) => {}
  }

  datatype Kind = Histogram | Counter | Gauge
  datatype Unit = Milliseconds | One | Usd | Ratio | Score | Seconds

  datatype Metric =
    | RequestDuration | RequestTtft | RequestCount | RequestErrors
    | CostUsd | CostRequestCount | CostRecordsMissing | CostRecordsInvalid
    | TokensInput | TokensOutput | TokensCompletionRatio | CacheReadTokens | CacheHitCount
    | QualityAnomalies | QualityMaxZscore | QualityEmptyCompletions
    | UnknownDimension | MalformedRecords | DuplicateRecords | RecordsRead | RecordsProcessed
    | CrossRunDuplicates | QuarantinedRecords | ReadTruncated | RecordsMissingCost | RecordsInvalidCost
    | FreshnessSeconds | ClockSkewSeconds | SeriesEmitted | RunDurationSeconds
    | SourceRequests | SourceRetries | SourcePages | SourceLatencySeconds
    | ExportSuccess | SourceSuccess | CheckpointConflicts
    | Unregistered(name: string)

  datatype Definition = Definition(kind: Kind, unit: Unit, dims: set<Dim>)

  const PRIMARY: set<Dim> := {Team, Route, ModelFamily, Env}
  const COST: set<Dim> := {Team, Route, ModelFamily, ProviderRegion}
  const QUALITY: set<Dim> := {Route, ModelFamily}

  function Registry(m: Metric): Option<Definition> {
    match m
    case RequestDuration => Some(Definition(Histogram, Milliseconds, PRIMARY))
    case RequestTtft => Some(Definition(Histogram, Milliseconds, PRIMARY))
    case RequestCount => Some(Definition(Counter, One, PRIMARY + {Outcome}))
    case RequestErrors => Some(Definition(Counter, One, PRIMARY + {ErrorCategory}))
    case CostUsd => Some(Definition(Counter, Usd, COST))
    case CostRequestCount => Some(Definition(Counter, One, COST))
    case CostRecordsMissing => Some(Definition(Counter, One, COST))
    case CostRecordsInvalid => Some(Definition(Counter, One, COST))
    case TokensInput => Some(Definition(Counter, One, COST))
    case TokensOutput => Some(Definition(Counter, One, COST))
    case TokensCompletionRatio => Some(Definition(Gauge, Ratio, COST))
    case CacheReadTokens => Some(Definition(Counter, One, COST))
    case CacheHitCount => Some(Definition(Counter, One, COST))
    case QualityAnomalies => Some(Definition(Counter, One, QUALITY))
    case QualityMaxZscore => Some(Definition(Gauge, Score, QUALITY))
    case QualityEmptyCompletions => Some(Definition(Counter, One, QUALITY))
    case UnknownDimension => Some(Definition(Counter, One, {Dimension}))
    case ReadTruncated => Some(Definition(Gauge, One, {}))
    case FreshnessSeconds => Some(Definition(Gauge, Seconds, {}))
    case ClockSkewSeconds => Some(Definition(Gauge, Seconds, {}))
    case SeriesEmitted => Some(Definition(Gauge, One, {}))
    case RunDurationSeconds => Some(Definition(Gauge, Seconds, {}))
    case SourceLatencySeconds => Some(Definition(Gauge, Seconds, {}))
    case ExportSuccess => Some(Definition(Gauge, One, {}))
    case SourceSuccess => Some(Definition(Gauge, One, {}))
    case Unregistered(_) => None
    case _ => Some(Definition(Counter, One, {}))
  }

  datatype Value = Number(x: real) | Buckets(hist: Hist, p50: Option<real>, p95: Option<real>, p99: Option<real>)

  datatype Point = Point(metric: Metric, kind: Kind, unit: Unit, dims: map<Dim, Label>, value: Value)

  datatype Violation = UnregisteredMetric | InvalidShape | ForbiddenDimension | DisallowedAttribute | DisallowedValue

  // What the guard raises for one point.
  function Violates(p: Point): Option<Violation> {
    var definition := Registry(p.metric);
    if definition.None? then Some(UnregisteredMetric)
    else if p.kind != definition.value.kind || p.unit != definition.value.unit then Some(InvalidShape)
    else if p.dims.Keys - definition.value.dims != {} then Some(ForbiddenDimension)
    else if exists d :: d in p.dims && d.Ungoverned? then Some(DisallowedAttribute)
    else if exists d :: d in p.dims && p.dims[d] !in Vocabulary(d) then Some(DisallowedValue)
    else None
  }

  predicate Allowed(p: Point) {
    Violates(p).None?
  }

  lemma RegistryIsGoverned(m: Metric, d: Dim)
    requires Registry(m).Some? && d in Registry(m).value.dims
    ensures !d.Ungoverned?
  {
  }

  /** What the guard raises for a point, and when it raises nothing; its check of attribute keys is implied
      by the one of the metric's own dimensions. */
  lemma ViolatesMeans(p: Point)
    ensures var d := Registry(p.metric);
            var shaped := d.Some? && p.kind == d.value.kind && p.unit == d.value.unit;
            var labelled := shaped && forall k :: k in p.dims ==> k in d.value.dims;
            && (Violates(p) == Some(UnregisteredMetric) <==> d.None?)
            && (Violates(p) == Some(InvalidShape) <==> d.Some? && !shaped)
            && (Violates(p) == Some(ForbiddenDimension) <==> shaped && !labelled)
            && (Violates(p) == Some(DisallowedValue) <==>
                  labelled && exists k :: k in p.dims && p.dims[k] !in Vocabulary(k))
            && (Allowed(p) <==> labelled && forall k :: k in p.dims ==> p.dims[k] in Vocabulary(k))
  {
    if Registry(p.metric).Some? {
      forall k | k in p.dims && k in Registry(p.metric).value.dims ensures !k.Ungoverned? {
        RegistryIsGoverned(p.metric, k);
      }
      assert p.dims.Keys - Registry(p.metric).value.dims == {} <==>
             forall k :: k in p.dims ==> k in Registry(p.metric).value.dims;
    }
  }

  /** The guard over a batch: it raises at the first violation and changes nothing. */
  method AssertAllowed(points: seq<Point>) returns (violation: Option<Violation>)
    ensures violation.None? ==> forall p :: p in points ==> Allowed(p)
    ensures violation.Some? ==>
              exists i :: (0 <= i < |points| && Violates(points[i]) == violation &&
                           forall k :: 0 <= k < i ==> Allowed(points[k]))
  {
    for i := 0 to |points|
      invariant forall k :: 0 <= k < i ==> Allowed(points[k])
    {
      violation := Violates(points[i]);
      if violation.Some? {
        return;
      }
    }
    violation := None;
  }

  /* ---------- the cardinality ceiling ---------- */

  function EstimatedMaxTotalSeries(): nat {
    var primary := |Vocabulary(Team)| * |Vocabulary(Route)| * |Vocabulary(ModelFamily)| * |Vocabulary(Env)|;
    var costGroup :=
      |Vocabulary(Team)| * |Vocabulary(Route)| * |Vocabulary(ModelFamily)| * |Vocabulary(ProviderRegion)|;
    2 * primary + primary * |Vocabulary(Outcome)| + primary * |Vocabulary(ErrorCategory)| + costGroup * 9
  }

  lemma NameSizes()
    ensures |Vocabulary(Team)| == 8 && |Vocabulary(Route)| == 4
  {
  }

  lemma ModelSizes()
    ensures |Vocabulary(ModelFamily)| == 7 && |Vocabulary(Env)| == 4 && |Vocabulary(Outcome)| == 2
  {
  }

  lemma OtherSizes()
    ensures |Vocabulary(ErrorCategory)| == 7 && |Vocabulary(ProviderRegion)| == 4 && |Vocabulary(Dimension)| == 5
  {
  }

  lemma VocabularySizes()
    ensures |Vocabulary(Team)| == 8 && |Vocabulary(Route)| == 4 && |Vocabulary(ModelFamily)| == 7
    ensures |Vocabulary(Env)| == 4 && |Vocabulary(Outcome)| == 2 && |Vocabulary(ErrorCategory)| == 7
    ensures |Vocabulary(ProviderRegion)| == 4 && |Vocabulary(Dimension)| == 5
  {
    NameSizes();
    ModelSizes();
    OtherSizes();
  }

  /** The ceiling the series tripwire is set against. */
  lemma CeilingValue()
    ensures EstimatedMaxTotalSeries() == 17_920
  {
    VocabularySizes();
  }
}
