/**
  Normalization: every governed dimension of an observation, as a value of its closed vocabulary.
  Case folding is that of ASCII.
 */
module Normalization {
  import opened Wrappers
  import opened Models
  import opened Governance
  import Timestamps

  datatype AnomalyConfig = AnomalyConfig(minSample: int, threshold: real, routeModelGrouping: bool)

  datatype Config = Config(buckets: seq<real>, anomaly: AnomalyConfig, includeProviderRegion: bool,
                           knownTeams: set<Label>, knownRoutes: set<Label>)
  {
    // What the constructors check.
    ghost predicate Valid() {
      && buckets != []
      && (forall i :: 0 <= i < |buckets| ==> buckets[i] > 0.0)
      && (forall i, j :: 0 <= i < j < |buckets| ==> buckets[i] < buckets[j])
      && knownTeams != {} && knownTeams <= Vocabulary(Team) - {Other, Unattributed}
      && knownRoutes <= Vocabulary(Route) - {Other}
      && anomaly.minSample >= 1 && anomaly.threshold > 0.0
    }
  }

  function LowerChar(c: char): char {
    if 'A' <= c <= 'Z' then (c as int + 32) as char else c
  }

  function Lower(s: string): string {
    seq(|s|, i requires 0 <= i < |s| => LowerChar(s[i]))
  }

  predicate Contains(s: string, part: string) {
    part <= s || (s != "" && Contains(s[1..], part))
  }

  // The first known label, in registration order, spelled like the (lower-case) name.
  function Canonical(name: string, labels: seq<Label>, known: set<Label>): (found: Option<Label>)
    ensures found.Some? ==> found.value in labels && found.value in known && Lower(Spelling(found.value)) == name
    ensures found.None? ==> forall x :: x in labels && x in known ==> Lower(Spelling(x)) != name
  {
    if labels == [] then None
    else if labels[0] in known && Lower(Spelling(labels[0])) == name then Some(labels[0])
    else Canonical(name, labels[1..], known)
  }

  function TeamOf(obs: Observation, cfg: Config): (t: Label)
    ensures t in Vocabulary(Team)
  {
    var raw := Timestamps.Strip(obs.team);
    if raw == "" then Unattributed
    else
      var found := Canonical(Lower(raw), TEAMS, cfg.knownTeams);
      if found.Some? then found.value else Other
  }

  predicate RouteChar(c: char, first: bool) {
    'a' <= LowerChar(c) <= 'z' || '0' <= c <= '9' || (!first && (c == '.' || c == '_' || c == '-'))
  }

  predicate RouteShape(s: string) {
    1 <= |s| <= 64 && forall i :: 0 <= i < |s| ==> RouteChar(s[i], i == 0)
  }

  function RouteOf(obs: Observation, cfg: Config): (r: Label)
    ensures r in Vocabulary(Route)
  {
    var raw := Timestamps.Strip(obs.route);
    if !RouteShape(raw) then Other
    else
      var found := Canonical(Lower(raw), ROUTES, cfg.knownRoutes);
      if found.Some? then found.value else Other
  }

  /** A team is unattributed exactly when blank, and otherwise a known team exactly when one is spelled
      like it up to case. */
  lemma TeamMatches(obs: Observation, cfg: Config)
    ensures var name, t := Timestamps.Strip(obs.team), TeamOf(obs, cfg);
            && (t == Unattributed <==> name == "")
            && (t in TEAMS ==> t in cfg.knownTeams && Lower(Spelling(t)) == Lower(name))
            && (t == Unattributed || t == Other || t in TEAMS)
            && (t == Other <==>
                  name != "" && forall x :: x in TEAMS && x in cfg.knownTeams ==> Lower(Spelling(x)) != Lower(name))
  {
    if Timestamps.Strip(obs.team) != "" {
      var found := Canonical(Lower(Timestamps.Strip(obs.team)), TEAMS, cfg.knownTeams);
    }
  }

  /** A route is a known one only if it is well-shaped and spelled like it up to case, and is folded
      exactly when it is ill-shaped or no known route is spelled like it. */
  lemma RouteMatches(obs: Observation, cfg: Config)
    ensures var name, r := Timestamps.Strip(obs.route), RouteOf(obs, cfg);
            && (r == Other || r in ROUTES)
            && (r in ROUTES ==> r in cfg.knownRoutes && Lower(Spelling(r)) == Lower(name) && RouteShape(name))
            && (r == Other <==>
                  !RouteShape(name) ||
                  forall x :: x in ROUTES && x in cfg.knownRoutes ==> Lower(Spelling(x)) != Lower(name))
  {
    if RouteShape(Timestamps.Strip(obs.route)) {
      var found := Canonical(Lower(Timestamps.Strip(obs.route)), ROUTES, cfg.knownRoutes);
    }
  }

  // Without one trailing newline, which the source's end-of-text anchor skips.
  function Line(s: string): string {
    if s != "" && s[|s| - 1] == '\n' then s[..|s| - 1] else s
  }

  // Groups of a dot or dash and at least one digit, to the end.
  predicate VersionTail(s: string) {
    s == "" ||
    ((s[0] == '.' || s[0] == '-') &&
     var run := Timestamps.DigitRun(s[1..]);
     run >= 1 && VersionTail(s[1..][run..]))
  }

  // A dot or dash, anything on one line, and "mini" at the end.
  predicate MiniTail(s: string) {
    |s| >= 5 && (s[0] == '.' || s[0] == '-') && s[|s| - 4..] == "mini" && '\n' !in s
  }

  function ModelFamilyOf(providedModel: string): (f: Label)
    ensures f in Vocabulary(ModelFamily)
  {
    var value := Lower(providedModel);
    var claude := Contains(value, "claude");
    if claude && Contains(value, "sonnet") then ClaudeSonnet
    else if claude && Contains(value, "haiku") then ClaudeHaiku
    else if claude && Contains(value, "opus") then ClaudeOpus
    else if "gpt-5" <= value && MiniTail(Line(value[5..])) then Gpt5Mini
    else if "gpt-5" <= value && VersionTail(Line(value[5..])) then Gpt5
    else if "gpt-4o" <= value then Gpt4o
    else Other
  }

  predicate VersionChar(c: char) {
    '0' <= c <= '9' || c == '.' || c == '-'
  }

  ghost predicate VersionText(s: string) {
    forall i :: 0 <= i < |s| ==> VersionChar(s[i])
  }

  lemma {:induction false} DigitRunDigits(s: string)
    ensures Timestamps.DigitRun(s) <= |s| && VersionText(s[..Timestamps.DigitRun(s)])
  {
    if Timestamps.DigitRun(s) > 0 {
      var run := Timestamps.DigitRun(s[1..]);
      DigitRunDigits(s[1..]);
      assert s[..run + 1] == [s[0]] + s[1..][..run];
    }
  }

  lemma {:induction false} VersionTailChars(s: string)
    requires VersionTail(s)
    ensures VersionText(s)
  {
    if s != "" {
      var run := Timestamps.DigitRun(s[1..]);
      DigitRunDigits(s[1..]);
      VersionTailChars(s[1..][run..]);
      assert s == [s[0]] + s[1..][..run] + s[1..][run..];
    }
  }

  lemma NotAVersion(s: string, i: nat)
    requires i < |s| && !VersionChar(s[i])
    ensures !VersionTail(s)
  {
    if VersionTail(s) {
      VersionTailChars(s);
    }
  }

  /** An unregistered variant such as gpt-5-nano is folded: what is not plainly a version counts as
      gpt-5 under no spelling. */
  lemma UnregisteredVariants(providedModel: string, i: nat)
    requires "gpt-5" <= Lower(providedModel) && !Contains(Lower(providedModel), "claude")
    requires var rest := Line(Lower(providedModel)[5..]); i < |rest| && !VersionChar(rest[i]) && !MiniTail(rest)
    ensures ModelFamilyOf(providedModel) == Other
  {
    var value := Lower(providedModel);
    var rest := Line(value[5..]);
    NotAVersion(rest, i);
    assert value[4] == "gpt-5"[4] != "gpt-4o"[4];
  }

  function CategoryOfType(t: string): (c: Label)
    ensures c in Vocabulary(ErrorCategory)
  {
    if t == "throttlingexception" || t == "ratelimiterror" || t == "ratelimitexception" then Throttling
    else if t == "timeouterror" || t == "timeoutexception" then Timeout
    else if t == "serviceunavailable" || t == "serviceunavailableexception"
            || t == "internalservererror" || t == "modelerrorexception" then ProviderError
    else if t == "authenticationerror" || t == "accessdeniedexception" then Auth
    else if t == "badrequesterror" || t == "validationexception" then InvalidRequest
    else if t == "contentpolicyviolation" then ContentFilter
    else Unknown
  }

  function ErrorCategoryOf(obs: Observation): (c: Label)
    requires obs.IsError()
    ensures c in Vocabulary(ErrorCategory)
  {
    if obs.error.None? then Unknown else CategoryOfType(Lower(obs.error.value))
  }

  /** The category is Unknown exactly when the error type is not one of the safe ones, up to case. */
  lemma CategoryKnown(obs: Observation)
    requires obs.error.Some?
    ensures ErrorCategoryOf(obs) == Unknown <==> Lower(obs.error.value) !in SAFE_ERROR_TYPES
  {
  }

  function EnvOf(obs: Observation): (e: Label)
    ensures e in Vocabulary(Env)
  {
    var raw := Lower(obs.env);
    if raw == "production" || raw == "prod" then Prod
    else if raw == "staging" || raw == "stage" then Staging
    else if raw == "dev" || raw == "development" then Dev
    else Other
  }

  function ProviderRegionOf(obs: Observation): (p: Label)
    ensures p in Vocabulary(ProviderRegion)
  {
    if "eu.anthropic" <= obs.internalModel then BedrockEu
    else if "us.anthropic" <= obs.internalModel then BedrockUs
    else if "external" <= obs.internalModel then ExternalZdr
    else Other
  }

  // The names of the dimensions that folded.
  function FoldNames(team: bool, route: bool, modelFamily: bool, env: bool, region: bool): (names: set<Label>)
    ensures names <= Vocabulary(Dimension)
    ensures (TeamName in names <==> team) && (RouteName in names <==> route)
    ensures (ModelFamilyName in names <==> modelFamily) && (EnvName in names <==> env)
    ensures ProviderRegionName in names <==> region
  {
    (if team then {TeamName} else {}) + (if route then {RouteName} else {})
    + (if modelFamily then {ModelFamilyName} else {}) + (if env then {EnvName} else {})
    + (if region then {ProviderRegionName} else {})
  }

  // Which dimensions folded a non-blank value, as a set: each is reported at most once.
  function FoldedDimensions(obs: Observation, cfg: Config): (folds: set<Label>)
    ensures folds <= Vocabulary(Dimension)
  {
    FoldNames(Timestamps.Strip(obs.team) != "" && TeamOf(obs, cfg) == Other,
              Timestamps.Strip(obs.route) != "" && RouteOf(obs, cfg) == Other,
              Timestamps.Strip(obs.providedModel) != "" && ModelFamilyOf(obs.providedModel) == Other,
              Timestamps.Strip(obs.env) != "" && EnvOf(obs) == Other,
              Timestamps.Strip(obs.internalModel) != "" && ProviderRegionOf(obs) == Other)
  }

  /** A dimension is reported as folded exactly when it was given and matches nothing known: for a
      team or route, nothing of the configured names, spelled like it up to case. */
  lemma FoldsMean(obs: Observation, cfg: Config)
    ensures var team, route := Timestamps.Strip(obs.team), Timestamps.Strip(obs.route);
            var folds := FoldedDimensions(obs, cfg);
            && (TeamName in folds <==>
                  team != "" && forall x :: x in TEAMS && x in cfg.knownTeams ==> Lower(Spelling(x)) != Lower(team))
            && (RouteName in folds <==>
                  route != "" && (!RouteShape(route) ||
                    forall x :: x in ROUTES && x in cfg.knownRoutes ==> Lower(Spelling(x)) != Lower(route)))
            && (ModelFamilyName in folds <==>
                  Timestamps.Strip(obs.providedModel) != "" && ModelFamilyOf(obs.providedModel) == Other)
            && (EnvName in folds <==> Timestamps.Strip(obs.env) != "" && EnvOf(obs) == Other)
            && (ProviderRegionName in folds <==>
                  Timestamps.Strip(obs.internalModel) != "" && ProviderRegionOf(obs) == Other)
  {
    TeamMatches(obs, cfg);
    RouteMatches(obs, cfg);
  }

  datatype PrimaryDims = PrimaryDims(team: Label, route: Label, modelFamily: Label, env: Label)
  {
    function AsDict(): map<Dim, Label> {
      map[Team := team, Route := route, ModelFamily := modelFamily, Env := env]
    }

    predicate Governed() {
      team in Vocabulary(Team) && route in Vocabulary(Route)
      && modelFamily in Vocabulary(ModelFamily) && env in Vocabulary(Env)
    }
  }

  function PrimaryDimsOf(obs: Observation, cfg: Config): (pk: PrimaryDims)
    ensures pk.Governed()
  {
    PrimaryDims(TeamOf(obs, cfg), RouteOf(obs, cfg), ModelFamilyOf(obs.providedModel), EnvOf(obs))
  }
}
