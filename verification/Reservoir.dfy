/**
  The bounded completion-length sample of a baseline group: Algorithm R, what it keeps, and the
  uniformity of the choice.
 */
module Reservoir {
  import opened Wrappers
  import opened Models
  import opened Governance
  import opened Normalization
  import opened Series

  /* ---------- Algorithm R ---------- */

  // One more value.  The draw, uniform on 0..seen, matters once the bucket is full.
  function Step<T>(bucket: seq<T>, value: T, cap: nat, draw: nat): seq<T> {
    if |bucket| < cap then bucket + [value]
    else if draw < cap then bucket[draw := value]
    else bucket
  }

  // The bucket after a stream, with one draw per value.
  function Kept<T>(values: seq<T>, draws: seq<nat>, cap: nat): (bucket: seq<T>)
    requires |draws| == |values|
  {
    if values == [] then []
    else
      var n := |values| - 1;
      Step(Kept(values[..n], draws[..n], cap), values[n], cap, draws[n])
  }

  // The outcomes of the draw for the value at position n; only one while the bucket is not full.
  function Outcomes(n: nat, cap: nat): set<nat> {
    if n < cap then {0} else UpTo(n + 1)
  }

  function UpTo(n: nat): (s: set<nat>)
    ensures |s| == n && forall i: nat :: i in s <==> i < n
  {
    if n == 0 then {} else UpTo(n - 1) + {n - 1}
  }

  // A member of the base with one more element.
  predicate Extends(x: seq<nat>, base: set<seq<nat>>, ext: seq<nat> -> set<nat>) {
    x != [] && x[..|x| - 1] in base && x[|x| - 1] in ext(x[..|x| - 1])
  }

  // All draw sequences for n values; each is as likely as any other.
  function Draws(n: nat, cap: nat): set<seq<nat>> {
    if n == 0 then {[]} else set js, j | js in Draws(n - 1, cap) && j in Outcomes(n - 1, cap) :: js + [j]
  }

  lemma DrawsMembers(n: nat, cap: nat, x: seq<nat>)
    ensures x in Draws(n + 1, cap) <==> Extends(x, Draws(n, cap), js => Outcomes(n, cap))
  {
    if x in Draws(n + 1, cap) {
      var js, j :| js in Draws(n, cap) && j in Outcomes(n, cap) && x == js + [j];
      assert x[..|x| - 1] == js;
    } else if x != [] {
      assert x == x[..|x| - 1] + [x[|x| - 1]];
    }
  }

  function Positions(n: nat): (ps: seq<nat>)
    ensures |ps| == n && forall i :: 0 <= i < n ==> ps[i] == i
  {
    seq(n, i requires 0 <= i => i)
  }

  // Where the kept values came from.
  function Sources(draws: seq<nat>, cap: nat): seq<nat> {
    Kept(Positions(|draws|), draws, cap)
  }

  lemma KeptSnoc<T>(values: seq<T>, draws: seq<nat>, value: T, draw: nat, cap: nat)
    requires |draws| == |values|
    ensures Kept(values + [value], draws + [draw], cap) == Step(Kept(values, draws, cap), value, cap, draw)
  {
    assert (values + [value])[..|values|] == values && (draws + [draw])[..|draws|] == draws;
  }

  lemma SourcesSnoc(draws: seq<nat>, draw: nat, cap: nat)
    ensures Sources(draws + [draw], cap) == Step(Sources(draws, cap), |draws|, cap, draw)
  {
    assert Positions(|draws| + 1) == Positions(|draws|) + [|draws|];
    KeptSnoc(Positions(|draws|), draws, |draws|, draw, cap);
  }

  lemma {:induction false} DrawsLength(n: nat, cap: nat, draws: seq<nat>)
    requires draws in Draws(n, cap)
    ensures |draws| == n
  {
    if n > 0 {
      DrawsMembers(n - 1, cap, draws);
      DrawsLength(n - 1, cap, draws[..|draws| - 1]);
    }
  }

  /** The sample holds the values of distinct positions of the stream, as many as fit. */
  lemma {:induction false} SourcesDistinct(draws: seq<nat>, cap: nat)
    ensures var s := Sources(draws, cap);
            && |s| == (if |draws| < cap then |draws| else cap)
            && (forall i :: 0 <= i < |s| ==> s[i] < |draws|)
            && forall i, k :: 0 <= i < k < |s| ==> s[i] != s[k]
  {
    if draws != [] {
      var front := draws[..|draws| - 1];
      SourcesDistinct(front, cap);
      assert draws == front + [draws[|draws| - 1]];
      SourcesSnoc(front, draws[|draws| - 1], cap);
    }
  }

  /** The bucket holds the values found at the sources. */
  lemma {:induction false} KeptBySource<T>(values: seq<T>, draws: seq<nat>, cap: nat)
    requires |draws| == |values|
    ensures var s := Sources(draws, cap);
            && |Kept(values, draws, cap)| == |s|
            && forall i :: 0 <= i < |s| ==> s[i] < |values| && Kept(values, draws, cap)[i] == values[s[i]]
  {
    if values != [] {
      var n := |values| - 1;
      KeptBySource(values[..n], draws[..n], cap);
      assert draws == draws[..n] + [draws[n]];
      SourcesSnoc(draws[..n], draws[n], cap);
    }
  }

  /** Up to the cap nothing is lost: the bucket is the stream. */
  lemma {:induction false} KeepsAllBelowCap<T>(values: seq<T>, draws: seq<nat>, cap: nat)
    requires |draws| == |values| <= cap
    ensures Kept(values, draws, cap) == values
  {
    if values != [] {
      var n := |values| - 1;
      KeepsAllBelowCap(values[..n], draws[..n], cap);
      KeptSnoc(values[..n], draws[..n], values[n], draws[n], cap);
      assert values == values[..n] + [values[n]] && draws == draws[..n] + [draws[n]];
    }
  }

  /* ---------- uniformity ---------- */

  lemma {:induction false} PrefixedSize(xs: set<seq<nat>>, front: seq<nat>, lasts: set<nat>)
    requires forall x :: x in xs <==> x != [] && x[..|x| - 1] == front && x[|x| - 1] in lasts
    ensures |xs| == |lasts|
  {
    if lasts == {} {
      assert xs == {};
    } else {
      var j :| j in lasts;
      var here := front + [j];
      assert here[..|here| - 1] == front;
      forall x | x in xs && x[|x| - 1] == j ensures x == here {
        assert x == x[..|x| - 1] + [x[|x| - 1]];
      }
      PrefixedSize(xs - {here}, front, lasts - {j});
    }
  }

  // A set of extensions, m for each member of the base.
  lemma {:induction false} ExtensionsSize(xs: set<seq<nat>>, base: set<seq<nat>>, ext: seq<nat> -> set<nat>, m: nat)
    requires forall x :: x in xs <==> Extends(x, base, ext)
    requires forall js :: js in base ==> |ext(js)| == m
    ensures |xs| == |base| * m
  {
    if base == {} {
      assert xs == {};
    } else {
      var b :| b in base;
      var here := set x | x in xs && x[..|x| - 1] == b;
      var rest := xs - here;
      PrefixedSize(here, b, ext(b));
      forall x ensures x in rest <==> Extends(x, base - {b}, ext) {
      }
      ExtensionsSize(rest, base - {b}, ext, m);
      assert xs == here + rest && |xs| == |here| + |rest|;
      OneMore(|base - {b}|, |base|, m, |rest|);
    }
  }

  lemma OneMore(n: nat, next: nat, m: nat, product: nat)
    requires product == n * m && next == n + 1
    ensures m + product == next * m
  {
  }

  // The draw sequences that leave stream position p in the bucket.
  function Keeping(n: nat, cap: nat, p: nat): set<seq<nat>> {
    set js | js in Draws(n, cap) && p in Sources(js, cap)
  }

  // The draws that keep p after js: all but the one that overwrites it.
  function Sparing(js: seq<nat>, cap: nat, p: nat): set<nat> {
    set j | j in UpTo(|js| + 1) && p in Sources(js + [j], cap)
  }

  lemma Overwrites(js: seq<nat>, cap: nat, at: nat, j: nat)
    requires |js| >= cap && at < |Sources(js, cap)|
    ensures Sources(js, cap)[at] in Sources(js + [j], cap) <==> j != at
  {
    var s := Sources(js, cap);
    SourcesDistinct(js, cap);
    SourcesSnoc(js, j, cap);
    if j != at {
      assert Sources(js + [j], cap)[at] == s[at];
    }
  }

  lemma SparesAllButOne(js: seq<nat>, cap: nat, p: nat)
    requires |js| >= cap && p in Sources(js, cap)
    ensures |Sparing(js, cap, p)| == |js|
  {
    var at :| 0 <= at < |Sources(js, cap)| && Sources(js, cap)[at] == p;
    SourcesDistinct(js, cap);
    forall j: nat ensures p in Sources(js + [j], cap) <==> j != at {
      Overwrites(js, cap, at, j);
    }
    assert Sparing(js, cap, p) == UpTo(|js| + 1) - {at};
  }

  lemma AdmitsBelowCap(js: seq<nat>, cap: nat)
    requires |js| >= cap
    ensures |Sparing(js, cap, |js|)| == cap
  {
    SourcesDistinct(js, cap);
    forall j: nat | j in UpTo(|js| + 1)
      ensures |js| in Sources(js + [j], cap) <==> j < cap
    {
      SourcesSnoc(js, j, cap);
      if j < cap {
        assert Sources(js + [j], cap)[j] == |js|;
      }
    }
    assert Sparing(js, cap, |js|) == UpTo(cap);
  }

  // A position that is gone stays gone.
  lemma NeverReturns(js: seq<nat>, j: nat, cap: nat, p: nat)
    requires p < |js| && p !in Sources(js, cap)
    ensures p !in Sources(js + [j], cap)
  {
    SourcesSnoc(js, j, cap);
  }

  lemma KeepingMember(n: nat, cap: nat, p: nat, js: seq<nat>, j: nat)
    requires n >= cap && p <= n && js in Draws(n, cap)
    ensures js + [j] in Keeping(n + 1, cap, p) <==>
            (p < n ==> js in Keeping(n, cap, p)) && j in Sparing(js, cap, p)
  {
    var x := js + [j];
    assert x[..|x| - 1] == js;
    DrawsMembers(n, cap, x);
    DrawsLength(n, cap, js);
    if p < n && p !in Sources(js, cap) {
      NeverReturns(js, j, cap, p);
    }
  }

  lemma KeepingMembers(n: nat, cap: nat, p: nat, x: seq<nat>)
    requires n >= cap && p <= n
    ensures x in Keeping(n + 1, cap, p) <==>
            Extends(x, if p == n then Draws(n, cap) else Keeping(n, cap, p), js => Sparing(js, cap, p))
  {
    DrawsMembers(n, cap, x);
    if x != [] && x[..|x| - 1] in Draws(n, cap) {
      KeepingMember(n, cap, p, x[..|x| - 1], x[|x| - 1]);
      assert x == x[..|x| - 1] + [x[|x| - 1]];
    }
  }

  lemma KeepingCount(n: nat, cap: nat, p: nat)
    requires n >= cap && p <= n
    ensures |Keeping(n + 1, cap, p)| == if p == n then |Draws(n, cap)| * cap else |Keeping(n, cap, p)| * n
  {
    var base, ext := if p == n then Draws(n, cap) else Keeping(n, cap, p), js => Sparing(js, cap, p);
    forall x ensures x in Keeping(n + 1, cap, p) <==> Extends(x, base, ext) {
      KeepingMembers(n, cap, p, x);
    }
    forall js | js in base ensures |ext(js)| == if p == n then cap else n {
      DrawsLength(n, cap, js);
      if p == n {
        AdmitsBelowCap(js, cap);
      } else {
        SparesAllButOne(js, cap, p);
      }
    }
    ExtensionsSize(Keeping(n + 1, cap, p), base, ext, if p == n then cap else n);
  }

  lemma DrawsCount(n: nat, next: nat, cap: nat)
    requires n >= cap && next == n + 1
    ensures |Draws(next, cap)| == |Draws(n, cap)| * next
  {
    var ext := (js: seq<nat>) => Outcomes(n, cap);
    forall x ensures x in Draws(n + 1, cap) <==> Extends(x, Draws(n, cap), ext) {
      DrawsMembers(n, cap, x);
    }
    ExtensionsSize(Draws(next, cap), Draws(n, cap), ext, next);
  }

  // The fraction of an old position, of a new one.
  lemma OldPosition(kept: nat, all: nat, n: nat, next: nat, cap: nat, kept': nat, all': nat)
    requires kept * n == cap * all && kept' == kept * n && all' == all * next
    ensures kept' * next == cap * all'
  {
  }

  lemma NewPosition(all: nat, n: nat, cap: nat, kept': nat, all': nat)
    requires kept' == all * cap && all' == all * n
    ensures kept' * n == cap * all'
  {
  }

  lemma KeepingAll(n: nat, cap: nat, p: nat)
    requires p < n <= cap
    ensures Keeping(n, cap, p) == Draws(n, cap)
  {
    forall js | js in Draws(n, cap) ensures p in Sources(js, cap) {
      DrawsLength(n, cap, js);
      KeepsAllBelowCap(Positions(n), js, cap);
      assert Positions(n)[p] == p;
    }
  }

  ghost predicate FairShare(n: nat, cap: nat, p: nat) {
    |Keeping(n, cap, p)| * n == cap * |Draws(n, cap)|
  }

  lemma FullIsFair(n: nat, p: nat)
    requires p < n
    ensures FairShare(n, n, p)
  {
    KeepingAll(n, n, p);
  }

  lemma NewIsFair(n: nat, next: nat, cap: nat)
    requires cap <= n && next == n + 1
    ensures FairShare(next, cap, n)
  {
    KeepingCount(n, cap, n);
    DrawsCount(n, next, cap);
    NewPosition(|Draws(n, cap)|, next, cap, |Keeping(next, cap, n)|, |Draws(next, cap)|);
  }

  lemma OldStaysFair(n: nat, next: nat, cap: nat, p: nat)
    requires cap <= n && p < n && next == n + 1 && FairShare(n, cap, p)
    ensures FairShare(next, cap, p)
  {
    KeepingCount(n, cap, p);
    DrawsCount(n, next, cap);
    OldPosition(|Keeping(n, cap, p)|, |Draws(n, cap)|, n, next, cap, |Keeping(next, cap, p)|, |Draws(next, cap)|);
  }

  /** Uniformity: of all draw sequences for n values, a fraction of exactly cap / n keeps position
      p, the same for every position. */
  lemma {:induction false} Uniform(n: nat, cap: nat, p: nat)
    requires cap <= n && p < n
    ensures FairShare(n, cap, p)
  {
    if n == cap {
      FullIsFair(n, p);
    } else if p < n - 1 {
      Uniform(n - 1, cap, p);
      OldStaysFair(n - 1, n, cap, p);
    } else {
      NewIsFair(n - 1, n, cap);
    }
  }

  /* ---------- the accumulator ---------- */

  datatype QualityKey = QualityKey(route: Label, modelFamily: Option<Label>)
  {
    function AsDict(): map<Dim, Label> {
      var dims := map[Route := route];
      if modelFamily.Some? then dims[ModelFamily := modelFamily.value] else dims
    }

    predicate Governed() {
      route in Vocabulary(Route) && (modelFamily.Some? ==> modelFamily.value in Vocabulary(ModelFamily))
    }
  }

  function BaselineKey(obs: Observation, cfg: Config): (key: QualityKey)
    ensures key.Governed()
  {
    QualityKey(RouteOf(obs, cfg),
               if cfg.anomaly.routeModelGrouping then Some(ModelFamilyOf(obs.providedModel)) else None)
  }

  // How observations are grouped; `key => BaselineKey(key, cfg)` in the source.
  type Grouping = Observation -> QualityKey

  // The completion lengths of one group, in order.
  function Lengths(xs: seq<Observation>, keyOf: Grouping, key: QualityKey): seq<nat> {
    if xs == [] then []
    else
      var front, last := Lengths(xs[..|xs| - 1], keyOf, key), xs[|xs| - 1];
      if !last.IsError() && last.outputTokens > 0 && keyOf(last) == key then front + [last.outputTokens] else front
  }

  function Empties(xs: seq<Observation>, keyOf: Grouping, key: QualityKey): nat {
    if xs == [] then 0
    else
      var front, last := Empties(xs[..|xs| - 1], keyOf, key), xs[|xs| - 1];
      if !last.IsError() && last.outputTokens == 0 && keyOf(last) == key then front + 1 else front
  }

  // A bucket that Algorithm R may have produced from these values.
  ghost predicate Sampled(bucket: seq<nat>, values: seq<nat>, cap: nat) {
    exists js :: js in Draws(|values|, cap) && |js| == |values| && bucket == Kept(values, js, cap)
  }

  lemma {:induction false} KeptSize<T>(values: seq<T>, draws: seq<nat>, cap: nat)
    requires |draws| == |values|
    ensures |Kept(values, draws, cap)| == if |values| < cap then |values| else cap
  {
    if values != [] {
      KeptSize(values[..|values| - 1], draws[..|values| - 1], cap);
    }
  }

  lemma SampledStep(bucket: seq<nat>, values: seq<nat>, value: nat, cap: nat, draw: nat)
    requires Sampled(bucket, values, cap) && draw in Outcomes(|values|, cap)
    ensures Sampled(Step(bucket, value, cap, draw), values + [value], cap)
  {
    var js :| js in Draws(|values|, cap) && |js| == |values| && bucket == Kept(values, js, cap);
    KeptSnoc(values, js, value, draw, cap);
    var next := js + [draw];
    assert next[..|next| - 1] == js;
    DrawsMembers(|values|, cap, next);
  }

  // A sample has as many values as there are and as fit; up to the cap it is the stream.
  lemma SampledSize(bucket: seq<nat>, values: seq<nat>, cap: nat)
    requires Sampled(bucket, values, cap)
    ensures |bucket| == if |values| < cap then |values| else cap
    ensures |values| <= cap ==> bucket == values
  {
    var js :| js in Draws(|values|, cap) && |js| == |values| && bucket == Kept(values, js, cap);
    KeptSize(values, js, cap);
    if |values| <= cap {
      KeepsAllBelowCap(values, js, cap);
    }
  }

  lemma SampledEmpty(cap: nat)
    ensures Sampled([], [], cap)
  {
    var none: seq<nat> := [];
    assert none in Draws(0, cap);
    assert Kept<nat>([], none, cap) == [];
  }

  datatype Groups = Groups(buckets: map<QualityKey, seq<nat>>, seen: map<QualityKey, nat>,
                           empty: map<QualityKey, nat>)

  // The accumulated state of one group after a stream: a sample, and the counts.
  ghost predicate ReflectsAt(g: Groups, xs: seq<Observation>, keyOf: Grouping, cap: nat, k: QualityKey) {
    var values, empties := Lengths(xs, keyOf, k), Empties(xs, keyOf, k);
    && (k in g.buckets <==> values != []) && (k in g.seen <==> values != []) && (k in g.empty <==> empties > 0)
    && (k in g.buckets ==> Sampled(g.buckets[k], values, cap))
    && (k in g.seen ==> g.seen[k] == |values|)
    && (k in g.empty ==> g.empty[k] == empties)
  }

  ghost predicate Reflects(g: Groups, xs: seq<Observation>, keyOf: Grouping, cap: nat) {
    forall k :: ReflectsAt(g, xs, keyOf, cap, k)
  }

  // One observation, with the draw it uses if its bucket is full.
  function AddTo(g: Groups, key: QualityKey, tokens: nat, cap: nat, draw: nat): Groups {
    if tokens == 0 then g.(empty := Bump(g.empty, key, 1, PlusNat))
    else
      var bucket := if key in g.buckets then g.buckets[key] else [];
      g.(buckets := g.buckets[key := Step(bucket, tokens, cap, draw)], seen := Bump(g.seen, key, 1, PlusNat))
  }

  lemma LengthsSnoc(xs: seq<Observation>, x: Observation, keyOf: Grouping, k: QualityKey)
    ensures Lengths(xs + [x], keyOf, k) ==
            Lengths(xs, keyOf, k) +
            (if !x.IsError() && x.outputTokens > 0 && keyOf(x) == k then [x.outputTokens] else [])
    ensures Empties(xs + [x], keyOf, k) ==
            Empties(xs, keyOf, k) + (if !x.IsError() && x.outputTokens == 0 && keyOf(x) == k then 1 else 0)
  {
    assert (xs + [x])[..|xs|] == xs;
  }

  class QualityAccumulator {
    const keyOf: Grouping
    const cap: nat
    var groups: Groups

    constructor (keyOf: Grouping, cap: nat)
      ensures this.keyOf == keyOf && this.cap == cap && Reflects(groups, [], keyOf, cap)
    {
      this.keyOf, this.cap := keyOf, cap;
      groups := Groups(map[], map[], map[]);
    }

    /** One more observation; the draw may be any outcome of the generator. */
    method Add(ghost xs: seq<Observation>, obs: Observation)
      requires Reflects(groups, xs, keyOf, cap)
      modifies this
      ensures Reflects(groups, xs + [obs], keyOf, cap)
    {
      if obs.IsError() {
        ErrorIgnored(groups, xs, obs, keyOf, cap);
        return;
      }
      var key := keyOf(obs);
      assert ReflectsAt(groups, xs, keyOf, cap, key);
      if obs.outputTokens == 0 {
        AddReflects(groups, xs, obs, keyOf, cap, 0);
        groups := groups.(empty := Bump(groups.empty, key, 1, PlusNat));
        return;
      }
      var draw: nat := 0;
      BucketSize(groups, xs, keyOf, cap, key);
      if |if key in groups.buckets then groups.buckets[key] else []| >= cap {
        draw :| draw <= if key in groups.seen then groups.seen[key] else 0;
      }
      AddReflects(groups, xs, obs, keyOf, cap, draw);
      AddLength(key, obs.outputTokens, draw);
    }

    method AddLength(key: QualityKey, tokens: nat, draw: nat)
      requires tokens > 0
      modifies this
      ensures groups == AddTo(old(groups), key, tokens, cap, draw)
    {
      var bucket := if key in groups.buckets then groups.buckets[key] else [];
      if |bucket| < cap {
        bucket := bucket + [tokens];
      } else if draw < cap {
        bucket := bucket[draw := tokens];
      }
      var seen := if key in groups.seen then groups.seen[key] else 0;
      groups := groups.(buckets := groups.buckets[key := bucket], seen := groups.seen[key := seen + 1]);
    }
  }

  lemma BucketSize(g: Groups, xs: seq<Observation>, keyOf: Grouping, cap: nat, k: QualityKey)
    requires ReflectsAt(g, xs, keyOf, cap, k)
    ensures |if k in g.buckets then g.buckets[k] else []| < cap <==> |Lengths(xs, keyOf, k)| < cap
    ensures Sampled(if k in g.buckets then g.buckets[k] else [], Lengths(xs, keyOf, k), cap)
  {
    SampledEmpty(cap);
    SampledSize(if k in g.buckets then g.buckets[k] else [], Lengths(xs, keyOf, k), cap);
  }

  lemma ErrorIgnored(g: Groups, xs: seq<Observation>, obs: Observation, keyOf: Grouping, cap: nat)
    requires Reflects(g, xs, keyOf, cap) && obs.IsError()
    ensures Reflects(g, xs + [obs], keyOf, cap)
  {
    forall k ensures ReflectsAt(g, xs + [obs], keyOf, cap, k) {
      assert ReflectsAt(g, xs, keyOf, cap, k);
      LengthsSnoc(xs, obs, keyOf, k);
    }
  }

  lemma AddReflects(g: Groups, xs: seq<Observation>, obs: Observation, keyOf: Grouping, cap: nat, draw: nat)
    requires Reflects(g, xs, keyOf, cap) && !obs.IsError()
    requires draw in Outcomes(|Lengths(xs, keyOf, keyOf(obs))|, cap) || obs.outputTokens == 0
    ensures Reflects(AddTo(g, keyOf(obs), obs.outputTokens, cap, draw), xs + [obs], keyOf, cap)
  {
    forall k ensures ReflectsAt(AddTo(g, keyOf(obs), obs.outputTokens, cap, draw), xs + [obs], keyOf, cap, k) {
      assert ReflectsAt(g, xs, keyOf, cap, k);
      LengthsSnoc(xs, obs, keyOf, k);
      if k == keyOf(obs) && obs.outputTokens > 0 {
        BucketSize(g, xs, keyOf, cap, k);
        SampledStep(if k in g.buckets then g.buckets[k] else [], Lengths(xs, keyOf, k), obs.outputTokens, cap, draw);
      }
    }
  }

  /** The batch grouping the streaming one is to agree with below the cap. */
  method GroupCompletionLengths(xs: seq<Observation>, keyOf: Grouping) returns (groups: map<QualityKey, seq<nat>>)
    ensures forall k :: k in groups <==> Lengths(xs, keyOf, k) != []
    ensures forall k :: k in groups ==> groups[k] == Lengths(xs, keyOf, k)
  {
    groups := map[];
    for i := 0 to |xs|
      invariant forall k :: k in groups <==> Lengths(xs[..i], keyOf, k) != []
      invariant forall k :: k in groups ==> groups[k] == Lengths(xs[..i], keyOf, k)
    {
      var obs := xs[i];
      assert xs[..i + 1][..i] == xs[..i];
      if !obs.IsError() && obs.outputTokens > 0 {
        var key := keyOf(obs);
        groups := groups[key := (if key in groups then groups[key] else []) + [obs.outputTokens]];
      }
    }
    assert xs[..|xs|] == xs;
  }

  /** Below the cap streaming and batch grouping agree, whatever the generator drew. */
  lemma MatchesBatch(g: Groups, batch: map<QualityKey, seq<nat>>, xs: seq<Observation>, keyOf: Grouping, cap: nat)
    requires Reflects(g, xs, keyOf, cap)
    requires forall k :: k in batch <==> Lengths(xs, keyOf, k) != []
    requires forall k :: k in batch ==> batch[k] == Lengths(xs, keyOf, k)
    requires forall k :: |Lengths(xs, keyOf, k)| <= cap
    ensures g.buckets == batch
  {
    forall k
      ensures k in g.buckets <==> k in batch
      ensures k in g.buckets ==> g.buckets[k] == batch[k]
    {
      assert ReflectsAt(g, xs, keyOf, cap, k);
      if k in g.buckets {
        SampledSize(g.buckets[k], Lengths(xs, keyOf, k), cap);
      }
    }
  }
}
