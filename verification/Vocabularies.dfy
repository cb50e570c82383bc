/**
  Which raw names each governed value stands for: the converse of normalization, value by value.
 */
module Vocabularies {
  import opened Wrappers
  import opened Models
  import opened Governance
  import opened Normalization
  import Timestamps

  /* ---------- case and containment ---------- */

  const UPPER: string := "ABCDEFGHIJKLMNOPQRSTUVWXYZ"
  const LOWER: string := "abcdefghijklmnopqrstuvwxyz"
  const DIGITS: string := "0123456789"

  /** Lower case exchanges the capital letters, one by one, and keeps every other character. */
  lemma LowerMeans(c: char)
    ensures forall i :: 0 <= i < 26 ==> LowerChar(UPPER[i]) == LOWER[i]
    ensures c !in UPPER ==> LowerChar(c) == c
  {
    if 'A' <= c <= 'Z' {
      assert UPPER[c as int - 'A' as int] == c;
    }
  }

  /** One text contains another exactly when it holds it at some position. */
  lemma {:induction false} ContainsIff(s: string, part: string)
    ensures Contains(s, part) <==> exists i :: 0 <= i <= |s| && part <= s[i..]
  {
    assert s[0..] == s;
    if s != "" {
      ContainsIff(s[1..], part);
      forall i | 0 <= i <= |s[1..]| ensures s[1..][i..] == s[i + 1..] {
      }
      if i :| 0 < i <= |s| && part <= s[i..] {
        assert part <= s[1..][i - 1..];
      }
    }
  }

  /* ---------- teams and routes ---------- */

  const SPELLINGS: map<Label, string> :=
    map[AdvisorChat := "advisorchat", Kyc := "kyc", DevAgent := "devagent", DigestBot := "digestbot",
        Research := "research", Marketing := "marketing", AdvisorChatTurn := "advisorchat-turn",
        DigestBotSummary := "digestbot-summary", DevAgentTask := "devagent-task"]

  lemma LowerIs(s: string, t: string)
    requires |s| == |t| && forall i :: 0 <= i < |s| ==> LowerChar(s[i]) == t[i]
    ensures Lower(s) == t
  {
  }

  lemma TeamSpelled(x: Label)
    requires x in TEAMS
    ensures x in SPELLINGS && Lower(Spelling(x)) == SPELLINGS[x]
  {
    LowerIs(Spelling(x), SPELLINGS[x]);
  }

  lemma RouteSpelled(x: Label)
    requires x in ROUTES
    ensures x in SPELLINGS && Lower(Spelling(x)) == SPELLINGS[x]
  {
  }

  lemma SpelledApart(x: Label, y: Label)
    requires x in SPELLINGS && y in SPELLINGS && SPELLINGS[x] == SPELLINGS[y]
    ensures x == y
  {
    assert |SPELLINGS[x]| == |SPELLINGS[y]|;
    assert SPELLINGS[x][0] == SPELLINGS[y][0] && SPELLINGS[x][2] == SPELLINGS[y][2];
  }

  /** A registered team is reported exactly for its own name, up to case and blanks around it, and where
      it is configured. */
  lemma TeamIff(obs: Observation, cfg: Config, x: Label)
    requires x in TEAMS
    ensures TeamOf(obs, cfg) == x <==>
              x in cfg.knownTeams && x in SPELLINGS && Lower(Timestamps.Strip(obs.team)) == SPELLINGS[x]
  {
    TeamSpelled(x);
    TeamMatches(obs, cfg);
    var t := TeamOf(obs, cfg);
    if t in TEAMS {
      TeamSpelled(t);
      if SPELLINGS[t] == SPELLINGS[x] {
        SpelledApart(t, x);
      }
    }
  }

  predicate IsAlphanumeric(c: char) {
    c in LOWER || c in UPPER || c in DIGITS
  }

  lemma Letters()
    ensures |LOWER| == |UPPER| == 26
    ensures forall i :: 0 <= i < 26 ==> LOWER[i] as int == 'a' as int + i && UPPER[i] as int == 'A' as int + i
  {
  }

  lemma LettersAre(c: char)
    ensures c in LOWER <==> 'a' <= c <= 'z'
    ensures c in UPPER <==> 'A' <= c <= 'Z'
  {
    Letters();
    InRun(LOWER, 'a', c);
    InRun(UPPER, 'A', c);
  }

  lemma InRun(s: string, first: char, c: char)
    requires forall i :: 0 <= i < |s| ==> s[i] as int == first as int + i
    ensures c in s <==> first as int <= c as int < first as int + |s|
  {
    if first as int <= c as int < first as int + |s| {
      assert s[c as int - first as int] == c;
    }
  }

  lemma DigitIs(c: char)
    ensures c in DIGITS <==> Timestamps.IsDigit(c)
  {
    if '0' <= c <= '9' {
      assert DIGITS[c as int - '0' as int] == c;
    }
  }

  lemma RouteCharMeans(c: char, first: bool)
    ensures RouteChar(c, first) <==> IsAlphanumeric(c) || (!first && (c == '.' || c == '_' || c == '-'))
  {
    LettersAre(c);
    DigitIs(c);
  }

  /** A route name is well-shaped when it has 1 to 64 letters, digits, dots, underscores and dashes, the
      first of them a letter or digit. */
  lemma RouteShapeIff(s: string)
    ensures RouteShape(s) <==>
              1 <= |s| <= 64 && IsAlphanumeric(s[0])
              && forall i :: 0 <= i < |s| ==> IsAlphanumeric(s[i]) || s[i] == '.' || s[i] == '_' || s[i] == '-'
  {
    forall i | 0 <= i < |s|
      ensures RouteChar(s[i], i == 0) <==>
                IsAlphanumeric(s[i]) || (i > 0 && (s[i] == '.' || s[i] == '_' || s[i] == '-'))
    {
      RouteCharMeans(s[i], i == 0);
    }
  }

  /** And a registered route exactly for its own name, where it is configured. */
  lemma RouteIff(obs: Observation, cfg: Config, x: Label)
    requires x in ROUTES
    ensures RouteOf(obs, cfg) == x <==>
              x in cfg.knownRoutes && x in SPELLINGS && RouteShape(Timestamps.Strip(obs.route))
              && Lower(Timestamps.Strip(obs.route)) == SPELLINGS[x]
  {
    RouteSpelled(x);
    RouteMatches(obs, cfg);
    var r := RouteOf(obs, cfg);
    if r in ROUTES {
      RouteSpelled(r);
      if SPELLINGS[r] == SPELLINGS[x] {
        SpelledApart(r, x);
      }
    }
  }

  /* ---------- the small maps ---------- */

  const ERROR_TYPES: map<string, Label> :=
    map["throttlingexception" := Throttling, "ratelimiterror" := Throttling, "ratelimitexception" := Throttling,
        "timeouterror" := Timeout, "timeoutexception" := Timeout,
        "serviceunavailable" := ProviderError, "serviceunavailableexception" := ProviderError,
        "internalservererror" := ProviderError, "modelerrorexception" := ProviderError,
        "authenticationerror" := Auth, "accessdeniedexception" := Auth,
        "badrequesterror" := InvalidRequest, "validationexception" := InvalidRequest,
        "contentpolicyviolation" := ContentFilter]

  lemma CategoryOfLength(t: string)
    requires t in ERROR_TYPES
    ensures |t| == 19 ==> CategoryOfType(t) == ERROR_TYPES[t]
  {
  }

  lemma CategoryOfOther(t: string)
    requires t in ERROR_TYPES
    ensures |t| != 19 ==> CategoryOfType(t) == ERROR_TYPES[t]
  {
  }

  lemma CategoryIs(t: string)
    requires t in ERROR_TYPES
    ensures CategoryOfType(t) == ERROR_TYPES[t]
  {
    CategoryOfLength(t);
    CategoryOfOther(t);
  }

  lemma NoCategory(t: string)
    requires t !in ERROR_TYPES
    ensures CategoryOfType(t) == Unknown
  {
  }

  lemma SafeTypesAreCategorized()
    ensures ERROR_TYPES.Keys == SAFE_ERROR_TYPES
  {
  }

  /** The category of an error is that of its type, and Unknown without one. */
  lemma CategoryIff(obs: Observation)
    requires obs.IsError()
    ensures ErrorCategoryOf(obs) ==
            if obs.error.Some? && Lower(obs.error.value) in ERROR_TYPES then ERROR_TYPES[Lower(obs.error.value)]
            else Unknown
  {
    if obs.error.Some? && Lower(obs.error.value) in ERROR_TYPES {
      CategoryIs(Lower(obs.error.value));
    } else if obs.error.Some? {
      NoCategory(Lower(obs.error.value));
    }
  }

  const ENVIRONMENTS: map<string, Label> :=
    map["production" := Prod, "prod" := Prod, "staging" := Staging, "stage" := Staging, "dev" := Dev,
        "development" := Dev]

  lemma EnvIs(obs: Observation)
    ensures EnvOf(obs) == if Lower(obs.env) in ENVIRONMENTS then ENVIRONMENTS[Lower(obs.env)] else Other
  {
  }

  /** A provider region is told by how the internal model id starts. */
  lemma RegionIff(obs: Observation)
    ensures ProviderRegionOf(obs) == BedrockEu <==> "eu.anthropic" <= obs.internalModel
    ensures ProviderRegionOf(obs) == BedrockUs <==> "us.anthropic" <= obs.internalModel
    ensures ProviderRegionOf(obs) == ExternalZdr <==> "external" <= obs.internalModel
  {
    assert "eu.anthropic"[0] == 'e' && "eu.anthropic"[1] == 'u' && "us.anthropic"[0] == 'u' && "external"[1] == 'x';
  }

  /* ---------- model families ---------- */

  // A Claude name is told by the family it contains, sonnet before haiku before opus.
  lemma ClaudeIff(model: string)
    ensures var value := Lower(model);
            var claude := Contains(value, "claude");
            && (ModelFamilyOf(model) == ClaudeSonnet <==> claude && Contains(value, "sonnet"))
            && (ModelFamilyOf(model) == ClaudeHaiku <==>
                  claude && Contains(value, "haiku") && !Contains(value, "sonnet"))
            && (ModelFamilyOf(model) == ClaudeOpus <==>
                  claude && Contains(value, "opus") && !Contains(value, "sonnet") && !Contains(value, "haiku"))
  {
  }

  predicate IsSeparator(c: char) {
    c == '.' || c == '-'
  }

  // A version: separators and digits, a separator first, a digit last, no two separators in a row.
  ghost predicate IsVersion(s: string) {
    s == "" ||
    (&& IsSeparator(s[0]) && s[|s| - 1] in DIGITS
     && (forall i :: 0 <= i < |s| ==> IsSeparator(s[i]) || s[i] in DIGITS)
     && forall i :: 0 <= i < |s| - 1 ==> !IsSeparator(s[i]) || !IsSeparator(s[i + 1]))
  }

  // A separator, a run of digits, and a version.
  lemma VersionStep(s: string, run: nat)
    requires s != "" && IsSeparator(s[0]) && 1 <= run < |s| && Timestamps.AllDigits(s[1..run + 1])
    requires run + 1 < |s| ==> !Timestamps.IsDigit(s[run + 1])
    ensures IsVersion(s) <==> IsVersion(s[run + 1..])
  {
    var rest := s[run + 1..];
    forall i | 1 <= i <= run ensures s[i] in DIGITS {
      assert Timestamps.IsDigit(s[1..run + 1][i - 1]);
      DigitIs(s[i]);
    }
    if rest != "" {
      DigitIs(s[run + 1]);
      assert rest[0] == s[run + 1] && rest[|rest| - 1] == s[|s| - 1];
      forall i | 0 <= i < |rest| ensures rest[i] == s[i + run + 1] {
      }
      assert IsVersion(rest) ==> IsVersion(s) by {
        forall i | run < i < |s| ensures s[i] == rest[i - run - 1] {
        }
      }
    }
  }

  lemma {:induction false} VersionIff(s: string)
    ensures VersionTail(s) <==> IsVersion(s)
    decreases |s|
  {
    if s != "" && IsSeparator(s[0]) {
      var run := Timestamps.DigitRun(s[1..]);
      if run >= 1 {
        assert s[1..][..run] == s[1..run + 1] && s[1..][run..] == s[run + 1..];
        VersionIff(s[run + 1..]);
        VersionStep(s, run);
      } else if |s| > 1 {
        DigitIs(s[1]);
      } else {
        DigitIs(s[0]);
      }
    }
  }

  // A separator, then anything on one line that ends in "mini".
  ghost predicate IsMini(s: string) {
    exists c, middle :: IsSeparator(c) && '\n' !in middle && s == [c] + middle + "mini"
  }

  lemma MiniIff(s: string)
    ensures MiniTail(s) <==> IsMini(s)
  {
    if MiniTail(s) {
      var middle := s[1..|s| - 4];
      assert s == [s[0]] + middle + "mini";
      assert '\n' !in middle;
    }
    if c, middle :| IsSeparator(c) && '\n' !in middle && s == [c] + middle + "mini" {
      assert s[|s| - 4..] == "mini";
      assert '\n' !in [c] + middle + "mini";
    }
  }

  // A name that is "gpt-5" and this rest, up to one newline at its end.
  ghost predicate Follows5(value: string, rest: string) {
    value == "gpt-5" + rest || value == "gpt-5" + rest + "\n"
  }

  lemma LineIs(value: string, rest: string)
    requires '\n' !in rest
    ensures Follows5(value, rest) <==> "gpt-5" <= value && Line(value[5..]) == rest
  {
    if "gpt-5" <= value {
      assert value == "gpt-5" + value[5..];
    }
    if value == "gpt-5" + rest {
      assert value[5..] == rest;
    } else if value == "gpt-5" + rest + "\n" {
      assert value[5..] == rest + "\n";
    }
  }

  lemma VersionIsLine(s: string)
    requires IsVersion(s)
    ensures '\n' !in s
  {
    DigitIs('\n');
  }

  lemma MiniIsLine(s: string)
    requires IsMini(s)
    ensures '\n' !in s
  {
    var c, middle :| IsSeparator(c) && '\n' !in middle && s == [c] + middle + "mini";
    assert '\n' !in "mini";
  }

  ghost predicate IsGpt5Mini(value: string) {
    exists rest :: IsMini(rest) && Follows5(value, rest)
  }

  ghost predicate IsGpt5(value: string) {
    exists rest :: IsVersion(rest) && Follows5(value, rest)
  }

  lemma Gpt5Iff(value: string)
    ensures IsGpt5Mini(value) <==> "gpt-5" <= value && MiniTail(Line(value[5..]))
    ensures IsGpt5(value) <==> "gpt-5" <= value && VersionTail(Line(value[5..]))
  {
    if "gpt-5" <= value {
      var rest := Line(value[5..]);
      MiniIff(rest);
      VersionIff(rest);
      if IsMini(rest) {
        MiniIsLine(rest);
        LineIs(value, rest);
      }
      if IsVersion(rest) {
        VersionIsLine(rest);
        LineIs(value, rest);
      }
    }
    if rest :| IsMini(rest) && Follows5(value, rest) {
      MiniIsLine(rest);
      LineIs(value, rest);
      MiniIff(rest);
    }
    if rest :| IsVersion(rest) && Follows5(value, rest) {
      VersionIsLine(rest);
      LineIs(value, rest);
      VersionIff(rest);
    }
  }

  // A name that contains "claude" and one of its families.
  predicate IsClaude(value: string) {
    Contains(value, "claude") && (Contains(value, "sonnet") || Contains(value, "haiku") || Contains(value, "opus"))
  }

  /** Of the other names, gpt-5-mini is "gpt-5", a separator, and anything that ends in "mini"; gpt-5 is
      "gpt-5" and a version; gpt-4o is anything that starts so; all else is folded. */
  lemma GptIff(model: string)
    requires !IsClaude(Lower(model))
    ensures var value := Lower(model);
            && (ModelFamilyOf(model) == Gpt5Mini <==> IsGpt5Mini(value))
            && (ModelFamilyOf(model) == Gpt5 <==> IsGpt5(value) && !IsGpt5Mini(value))
            && (ModelFamilyOf(model) == Gpt4o <==> "gpt-4o" <= value)
            && (ModelFamilyOf(model) == Other <==> !IsGpt5Mini(value) && !IsGpt5(value) && !("gpt-4o" <= value))
  {
    var value := Lower(model);
    Gpt5Iff(value);
    if "gpt-4o" <= value {
      assert value[4] == '4' && "gpt-5"[4] == '5';
    }
  }
}
