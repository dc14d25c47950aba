/** Integer-only route eligibility, scoring and ranking. */
module RouteScoring {
  import opened Prelude

  datatype LinkStatus = Up | Degraded | Down

  datatype Candidate = Candidate(
    routeId: string, source: string, destination: string, rail: string, provider: string, adapter: string,
    currencyFrom: string, currencyTo: string, minAmount: int, maxAmount: int, latencyMs: int,
    congestionBps: int, liquidity: int, headroomBps: int, speedBps: int, estimatedCost: int,
    link: LinkStatus, observedAt: int, expiresAt: int)

  datatype Request = Request(amount: int, currencyFrom: string, currencyTo: string, budget: int,
                             source: string, destination: string, at: int)

  datatype Weights = Weights(latency: int, congestion: int, liquidity: int, throughput: int,
                             speed: int, cost: int, link: int)

  datatype Components = Components(latency: int, congestion: int, liquidity: int, throughput: int,
                                   speed: int, cost: int, link: int)

  datatype Scored = Scored(candidate: Candidate, score: int, components: Components)

  datatype RankedRoute = RankedRoute(candidate: Candidate, score: int, components: Components, rank: nat)

  datatype RankError = DuplicateRouteId | InvalidCandidate

  const DEFAULT_WEIGHTS := Weights(1600, 1200, 1700, 1200, 1200, 1800, 1300)

  predicate ValidWeights(w: Weights) {
    && 0 <= w.latency && 0 <= w.congestion && 0 <= w.liquidity && 0 <= w.throughput
    && 0 <= w.speed && 0 <= w.cost && 0 <= w.link
    && w.latency + w.congestion + w.liquidity + w.throughput + w.speed + w.cost + w.link == 10_000
  }

  predicate Normalized(c: Candidate) {
    && NotBlank(c.routeId) && NotBlank(c.source) && NotBlank(c.destination) && NotBlank(c.rail)
    && NotBlank(c.provider) && NotBlank(c.adapter) && NotBlank(c.currencyFrom) && NotBlank(c.currencyTo)
    && 0 <= c.minAmount <= c.maxAmount && 1 <= c.maxAmount && 0 <= c.latencyMs
    && 0 <= c.congestionBps <= 10_000 && 0 <= c.liquidity && 0 <= c.headroomBps <= 10_000
    && 0 <= c.speedBps <= 10_000 && 0 <= c.estimatedCost && c.observedAt < c.expiresAt
  }

  predicate Eligible(c: Candidate, q: Request) {
    && !c.link.Down? && c.observedAt <= q.at < c.expiresAt
    && Upper(c.currencyFrom) == Upper(q.currencyFrom) && Upper(c.currencyTo) == Upper(q.currencyTo)
    && c.minAmount <= q.amount <= c.maxAmount && q.amount <= c.liquidity
    && c.estimatedCost <= q.budget && c.source == q.source && c.destination == q.destination
  }

  /** The amounts of an accepted UTT: a positive amount and a non-negative budget. */
  predicate Payable(q: Request) { 1 <= q.amount && 0 <= q.budget }

  function ComponentsOf(c: Candidate, q: Request): Components
    requires Payable(q)
  {
    Components(
      Max(0, 10_000 - Min(c.latencyMs, 10_000)),
      10_000 - c.congestionBps,
      Min(10_000, (c.liquidity - q.amount) * 10_000 / q.amount),
      c.headroomBps,
      c.speedBps,
      if q.budget == 0 then 10_000 else Max(0, 10_000 - c.estimatedCost * 10_000 / q.budget),
      if c.link.Up? then 10_000 else 4_000)
  }

  function Weighted(k: Components, w: Weights): int {
    k.latency * w.latency + k.congestion * w.congestion + k.liquidity * w.liquidity
    + k.throughput * w.throughput + k.speed * w.speed + k.cost * w.cost + k.link * w.link
  }

  function Score(c: Candidate, q: Request, w: Weights): int
    requires Payable(q)
  {
    Weighted(ComponentsOf(c, q), w) / 10_000
  }

  function ScoreOf(c: Candidate, q: Request, w: Weights): Scored
    requires Payable(q)
  {
    Scored(c, Score(c, q, w), ComponentsOf(c, q))
  }

  /** Descending score, then ascending route identifier. */
  predicate Before(a: Scored, b: Scored) {
    a.score > b.score || (a.score == b.score && StrLt(a.candidate.routeId, b.candidate.routeId))
  }

  function ScoredEligible(cs: seq<Candidate>, q: Request, w: Weights): seq<Scored>
    requires Payable(q)
  {
    if cs == [] then []
    else ScoredEligible(cs[..|cs| - 1], q, w)
         + (if Eligible(cs[|cs| - 1], q) then [ScoreOf(cs[|cs| - 1], q, w)] else [])
  }

  function Numbered(s: seq<Scored>): (r: seq<RankedRoute>)
    ensures |r| == |s|
    ensures forall i :: 0 <= i < |s| ==> r[i] == RankedRoute(s[i].candidate, s[i].score, s[i].components, i + 1)
  {
    seq(|s|, i requires 0 <= i < |s| => RankedRoute(s[i].candidate, s[i].score, s[i].components, i + 1))
  }

  function RouteIds(cs: seq<Candidate>): set<string> { set c | c in cs :: c.routeId }

  function Ranking(cs: seq<Candidate>, q: Request, w: Weights): Result<seq<RankedRoute>, RankError>
    requires Payable(q)
  {
    if |RouteIds(cs)| != |cs| then Err(DuplicateRouteId)
    else if exists c :: c in cs && !Normalized(c) then Err(InvalidCandidate)
    else Ok(Numbered(Sort(Before, ScoredEligible(cs, q, w))))
  }

  /** The scorer: one pass that scores what is eligible, then a sort. */
  method Rank(cs: seq<Candidate>, q: Request, w: Weights) returns (r: Result<seq<RankedRoute>, RankError>)
    requires Payable(q)
    ensures r == Ranking(cs, q, w)
  {
    if |RouteIds(cs)| != |cs| {
      return Err(DuplicateRouteId);
    }
    var scored: seq<Scored> := [];
    for i := 0 to |cs|
      invariant scored == ScoredEligible(cs[..i], q, w)
      invariant forall c :: c in cs[..i] ==> Normalized(c)
    {
      if !Normalized(cs[i]) {
        assert cs[i] in cs;
        return Err(InvalidCandidate);
      }
      assert cs[..i + 1][..i] == cs[..i];
      if Eligible(cs[i], q) {
        scored := scored + [ScoreOf(cs[i], q, w)];
      }
    }
    assert cs[..|cs|] == cs;
    scored := Sort(Before, scored);
    r := Ok(Numbered(scored));
  }

  // --------------------------------------------------------------- ordering

  lemma BeforeIsAnOrder()
    ensures Transitive(Before) && Asymmetric(Before)
  {
    forall x: Scored, y: Scored, z: Scored | Before(x, y) && Before(y, z) ensures Before(x, z) {
      if x.score == y.score == z.score {
        StrLtTransitive(x.candidate.routeId, y.candidate.routeId, z.candidate.routeId);
      }
    }
    forall x: Scored, y: Scored | Before(x, y) ensures !Before(y, x) {
      if x.score == y.score {
        StrLtAsymmetric(x.candidate.routeId, y.candidate.routeId);
      }
    }
  }

  ghost predicate DistinctIds(cs: seq<Candidate>) {
    forall i, j :: 0 <= i < j < |cs| ==> cs[i].routeId != cs[j].routeId
  }

  lemma {:induction false} IdCount(cs: seq<Candidate>)
    ensures |RouteIds(cs)| <= |cs|
    ensures |RouteIds(cs)| == |cs| ==> DistinctIds(cs)
  {
    if cs != [] {
      var init, last := cs[..|cs| - 1], cs[|cs| - 1];
      assert cs == init + [last];
      IdCount(init);
      assert RouteIds(cs) == RouteIds(init) + {last.routeId};
      if last.routeId in RouteIds(init) {
        assert RouteIds(cs) == RouteIds(init);
      } else {
        assert forall c :: c in init ==> c.routeId != last.routeId;
      }
    }
  }

  /** What is scored: the eligible candidates, each once. */
  lemma {:induction false} ScoredMembers(cs: seq<Candidate>, q: Request, w: Weights)
    requires Payable(q)
    ensures forall s :: s in ScoredEligible(cs, q, w) <==>
              s.candidate in cs && Eligible(s.candidate, q) && s == ScoreOf(s.candidate, q, w)
    ensures DistinctIds(cs) ==> Comparable(Before, ScoredEligible(cs, q, w))
  {
    if cs != [] {
      var init, last := cs[..|cs| - 1], cs[|cs| - 1];
      assert cs == init + [last];
      ScoredMembers(init, q, w);
      var a := ScoredEligible(init, q, w);
      if DistinctIds(cs) {
        forall s | s in a ensures Before(s, ScoreOf(last, q, w)) || Before(ScoreOf(last, q, w), s) {
          assert s.candidate.routeId != last.routeId;
          StrLtTotal(s.candidate.routeId, last.routeId);
        }
      }
    }
  }

  /** The sorted list behind a ranking: strictly better-first, nothing but what was scored. */
  lemma {:induction false} SortedScores(cs: seq<Candidate>, q: Request, w: Weights)
    requires Payable(q) && |RouteIds(cs)| == |cs|
    ensures var sorted := Sort(Before, ScoredEligible(cs, q, w));
            && Ascending(Before, sorted)
            && (forall i :: 0 <= i < |sorted| ==>
                  && sorted[i].candidate in cs && Eligible(sorted[i].candidate, q)
                  && sorted[i] == ScoreOf(sorted[i].candidate, q, w))
            && (forall c :: c in cs && Eligible(c, q) ==> ScoreOf(c, q, w) in sorted)
  {
    IdCount(cs);
    ScoredMembers(cs, q, w);
    BeforeIsAnOrder();
    SortAscends(Before, ScoredEligible(cs, q, w));
    var sorted := Sort(Before, ScoredEligible(cs, q, w));
    assert forall i :: 0 <= i < |sorted| ==> sorted[i] in ScoredEligible(cs, q, w);
  }

  /** Two places of a strictly ordered list of distinct candidates hold different routes. */
  lemma PlacesDiffer(cs: seq<Candidate>, a: Scored, b: Scored)
    requires DistinctIds(cs) && a.candidate in cs && b.candidate in cs && Before(a, b)
    requires a.candidate == b.candidate ==> a == b
    ensures a.candidate.routeId != b.candidate.routeId
  {
    BeforeIsAnOrder();
    var x :| 0 <= x < |cs| && cs[x] == a.candidate;
    var y :| 0 <= y < |cs| && cs[y] == b.candidate;
    assert x == y ==> a == b;
  }

  ghost predicate IsRanked(r: seq<RankedRoute>, c: Candidate) { exists i :: 0 <= i < |r| && r[i].candidate == c }

  /** A ranking lists exactly the candidates whose link is not down, whose telemetry is
      current, whose currencies, amount range, liquidity, cost and institutions suit the
      request, with their own scores, strictly better first, numbered from one, each route
      once. */
  lemma RankingIsExact(cs: seq<Candidate>, q: Request, w: Weights)
    requires Payable(q) && Ranking(cs, q, w).Ok?
    ensures var r := Ranking(cs, q, w).value;
            && (forall c :: IsRanked(r, c) <==>
                  && c in cs && c.link != Down && c.observedAt <= q.at < c.expiresAt
                  && Upper(c.currencyFrom) == Upper(q.currencyFrom) && Upper(c.currencyTo) == Upper(q.currencyTo)
                  && c.minAmount <= q.amount <= c.maxAmount && q.amount <= c.liquidity
                  && c.estimatedCost <= q.budget && c.source == q.source && c.destination == q.destination)
            && (forall i :: 0 <= i < |r| ==>
                  && r[i].rank == i + 1 && Normalized(r[i].candidate)
                  && r[i].score == Score(r[i].candidate, q, w)
                  && r[i].components == ComponentsOf(r[i].candidate, q))
            && (forall i, j :: 0 <= i < j < |r| ==>
                  && r[i].candidate.routeId != r[j].candidate.routeId
                  && (r[i].score > r[j].score
                      || (r[i].score == r[j].score && StrLt(r[i].candidate.routeId, r[j].candidate.routeId))))
  {
    hide Ranking, IsRanked, Normalized, Score, ComponentsOf, Upper;
    EligibleAreRanked(cs, q, w);
  }

  lemma EligibleAreRanked(cs: seq<Candidate>, q: Request, w: Weights)
    requires Payable(q) && Ranking(cs, q, w).Ok?
    ensures var r := Ranking(cs, q, w).value;
            && (forall c :: c in cs && Eligible(c, q) <==> IsRanked(r, c))
            && (forall i :: 0 <= i < |r| ==>
                  && r[i].rank == i + 1 && Normalized(r[i].candidate)
                  && r[i].score == Score(r[i].candidate, q, w)
                  && r[i].components == ComponentsOf(r[i].candidate, q))
            && (forall i, j :: 0 <= i < j < |r| ==>
                  && r[i].candidate.routeId != r[j].candidate.routeId
                  && (r[i].score > r[j].score
                      || (r[i].score == r[j].score && StrLt(r[i].candidate.routeId, r[j].candidate.routeId))))
  {
    hide Score, ComponentsOf;
    var sorted := Sort(Before, ScoredEligible(cs, q, w));
    var r := Ranking(cs, q, w).value;
    SortedScores(cs, q, w);
    IdCount(cs);
    forall c | c in cs && Eligible(c, q) ensures IsRanked(r, c) {
      var i :| 0 <= i < |sorted| && sorted[i] == ScoreOf(c, q, w);
      assert r[i].candidate == c;
    }
    forall i, j | 0 <= i < j < |r| ensures r[i].candidate.routeId != r[j].candidate.routeId {
      PlacesDiffer(cs, sorted[i], sorted[j]);
    }
  }

  lemma {:induction false} DistinctCount(cs: seq<Candidate>)
    requires DistinctIds(cs)
    ensures |RouteIds(cs)| == |cs|
  {
    if cs != [] {
      var init, last := cs[..|cs| - 1], cs[|cs| - 1];
      assert cs == init + [last];
      DistinctCount(init);
      assert RouteIds(cs) == RouteIds(init) + {last.routeId};
      assert last.routeId !in RouteIds(init);
    }
  }

  predicate SomeTextBlank(c: Candidate) {
    || !NotBlank(c.routeId) || !NotBlank(c.source) || !NotBlank(c.destination) || !NotBlank(c.rail)
    || !NotBlank(c.provider) || !NotBlank(c.adapter) || !NotBlank(c.currencyFrom) || !NotBlank(c.currencyTo)
  }

  /** A request is refused exactly for a repeated route identifier, and then for a candidate
      with a blank text, a negative quantity, a rating beyond 10000, an empty amount range or
      telemetry that ends before it begins. */
  lemma {:induction false} RankingRefuses(cs: seq<Candidate>, q: Request, w: Weights)
    requires Payable(q)
    ensures var r := Ranking(cs, q, w);
            var repeated := exists i, j :: 0 <= i < j < |cs| && cs[i].routeId == cs[j].routeId;
            var malformed := exists i :: 0 <= i < |cs| && var c := cs[i];
              || SomeTextBlank(c) || c.minAmount < 0 || c.maxAmount < 1 || c.maxAmount < c.minAmount
              || c.latencyMs < 0 || c.congestionBps < 0 || c.congestionBps > 10_000 || c.liquidity < 0
              || c.headroomBps < 0 || c.headroomBps > 10_000 || c.speedBps < 0 || c.speedBps > 10_000
              || c.estimatedCost < 0 || c.expiresAt <= c.observedAt;
            && (r == Err(DuplicateRouteId) <==> repeated)
            && (r == Err(InvalidCandidate) <==> !repeated && malformed)
            && (r.Ok? <==> !repeated && !malformed)
  {
    hide NotBlank;
    IdCount(cs);
    if DistinctIds(cs) { DistinctCount(cs); }
    if i :| 0 <= i < |cs| && !Normalized(cs[i]) { assert cs[i] in cs; }
  }

  /** The order in which candidates are offered does not change the ranking. */
  lemma RankingIgnoresInputOrder(cs: seq<Candidate>, ds: seq<Candidate>, q: Request, w: Weights)
    requires Payable(q) && multiset(cs) == multiset(ds)
    ensures Ranking(cs, q, w) == Ranking(ds, q, w)
  {
    assert |multiset(cs)| == |cs| && |multiset(ds)| == |ds|;
    assert forall c :: c in cs <==> c in multiset(cs);
    assert forall c :: c in ds <==> c in multiset(ds);
    assert RouteIds(cs) == RouteIds(ds);
    if Ranking(cs, q, w).Ok? {
      IdCount(cs);
      IdCount(ds);
      ScoredMembers(cs, q, w);
      ScoredMembers(ds, q, w);
      BeforeIsAnOrder();
      SortIgnoresOrder(Before, ScoredEligible(cs, q, w), ScoredEligible(ds, q, w));
    }
  }

  // ----------------------------------------------------------------- scores

  lemma Quotient(n: int, d: int)
    requires 0 <= n && 0 < d
    ensures 0 <= n / d
  {
  }

  lemma QuotientMonotone(a: int, b: int, d: int)
    requires 0 <= a <= b && 0 < d
    ensures a / d <= b / d
  {
    var x, y := a / d, b / d;
    assert x * d <= a <= b < y * d + d;
    ProductMonotone(y + 1, Max(x, y + 1), d);
    assert x <= y || Max(x, y + 1) == x;
  }

  lemma Product(k: int, w: int)
    requires 0 <= k <= 10_000 && 0 <= w
    ensures 0 <= k * w <= 10_000 * w
  {
  }

  ghost predicate InBps(k: Components) {
    && 0 <= k.latency <= 10_000 && 0 <= k.congestion <= 10_000 && 0 <= k.liquidity <= 10_000
    && 0 <= k.throughput <= 10_000 && 0 <= k.speed <= 10_000 && 0 <= k.cost <= 10_000 && 0 <= k.link <= 10_000
  }

  lemma ComponentsInBps(c: Candidate, q: Request)
    requires Payable(q) && Normalized(c) && Eligible(c, q)
    ensures InBps(ComponentsOf(c, q))
  {
    Quotient((c.liquidity - q.amount) * 10_000, q.amount);
    if q.budget > 0 {
      Quotient(c.estimatedCost * 10_000, q.budget);
    }
  }

  /** Scores are basis points. */
  lemma ScoreInBps(c: Candidate, q: Request, w: Weights)
    requires Payable(q) && Normalized(c) && Eligible(c, q) && ValidWeights(w)
    ensures 0 <= Score(c, q, w) <= 10_000
  {
    var k := ComponentsOf(c, q);
    ComponentsInBps(c, q);
    Product(k.latency, w.latency);
    Product(k.congestion, w.congestion);
    Product(k.liquidity, w.liquidity);
    Product(k.throughput, w.throughput);
    Product(k.speed, w.speed);
    Product(k.cost, w.cost);
    Product(k.link, w.link);
    assert 0 <= Weighted(k, w) <= 10_000 * 10_000;
  }

  lemma ProductMonotone(a: int, b: int, w: int)
    requires a <= b && 0 <= w
    ensures a * w <= b * w
  {
  }

  /** Making a route cheaper or faster keeps it eligible and never lowers its score. */
  lemma CheaperOrFasterScoresNoLower(c: Candidate, cost: int, latency: int, q: Request, w: Weights)
    requires Payable(q) && Normalized(c) && Eligible(c, q) && ValidWeights(w)
    requires 0 <= cost <= c.estimatedCost && 0 <= latency <= c.latencyMs
    ensures var d := c.(estimatedCost := cost, latencyMs := latency);
            Normalized(d) && Eligible(d, q) && Score(c, q, w) <= Score(d, q, w)
  {
    var d := c.(estimatedCost := cost, latencyMs := latency);
    var k, l := ComponentsOf(c, q), ComponentsOf(d, q);
    ComponentsInBps(c, q);
    if q.budget > 0 {
      QuotientMonotone(cost * 10_000, c.estimatedCost * 10_000, q.budget);
    }
    ProductMonotone(k.latency, l.latency, w.latency);
    ProductMonotone(k.cost, l.cost, w.cost);
    ScoreInBps(c, q, w);
    ComponentsInBps(d, q);
    assert Weighted(k, w) <= Weighted(l, w);
    WeightedNonNegative(k, w);
    QuotientMonotone(Weighted(k, w), Weighted(l, w), 10_000);
  }

  lemma WeightedNonNegative(k: Components, w: Weights)
    requires InBps(k) && ValidWeights(w)
    ensures 0 <= Weighted(k, w)
  {
    Product(k.latency, w.latency);
    Product(k.congestion, w.congestion);
    Product(k.liquidity, w.liquidity);
    Product(k.throughput, w.throughput);
    Product(k.speed, w.speed);
    Product(k.cost, w.cost);
    Product(k.link, w.link);
  }

  // ------------------------------------------------------- what a score means

  /** A rating is the share of a whole in basis points, rounded down and capped. */
  ghost predicate IsShare(rating: int, part: int, whole: int) {
    if whole <= part then rating == 10_000 else rating * whole <= part * 10_000 < (rating + 1) * whole
  }

  /** A route at least as good as another in every respect. */
  predicate NoWorse(c: Candidate, d: Candidate) {
    && d.latencyMs <= c.latencyMs && d.congestionBps <= c.congestionBps && c.liquidity <= d.liquidity
    && c.headroomBps <= d.headroomBps && c.speedBps <= d.speedBps && d.estimatedCost <= c.estimatedCost
    && (c.link == Up ==> d.link == Up)
  }

  lemma NoWorseComponents(c: Candidate, d: Candidate, q: Request)
    requires Payable(q) && Normalized(c) && Eligible(c, q) && Normalized(d) && Eligible(d, q) && NoWorse(c, d)
    ensures var k, l := ComponentsOf(c, q), ComponentsOf(d, q);
            && k.latency <= l.latency && k.congestion <= l.congestion && k.liquidity <= l.liquidity
            && k.throughput <= l.throughput && k.speed <= l.speed && k.cost <= l.cost && k.link <= l.link
  {
    QuotientMonotone((c.liquidity - q.amount) * 10_000, (d.liquidity - q.amount) * 10_000, q.amount);
    if q.budget > 0 {
      QuotientMonotone(d.estimatedCost * 10_000, c.estimatedCost * 10_000, q.budget);
    }
  }

  /** A route that is at least as good in every respect, latency, congestion, liquidity,
      headroom, speed, cost and link, never scores lower. */
  lemma NoWorseScoresNoLower(c: Candidate, d: Candidate, q: Request, w: Weights)
    requires Payable(q) && Normalized(c) && Eligible(c, q) && Normalized(d) && Eligible(d, q) && NoWorse(c, d)
    requires ValidWeights(w)
    ensures Score(c, q, w) <= Score(d, q, w)
  {
    hide ComponentsOf;
    var k, l := ComponentsOf(c, q), ComponentsOf(d, q);
    NoWorseComponents(c, d, q);
    ComponentsInBps(c, q);
    ProductMonotone(k.latency, l.latency, w.latency);
    ProductMonotone(k.congestion, l.congestion, w.congestion);
    ProductMonotone(k.liquidity, l.liquidity, w.liquidity);
    ProductMonotone(k.throughput, l.throughput, w.throughput);
    ProductMonotone(k.speed, l.speed, w.speed);
    ProductMonotone(k.cost, l.cost, w.cost);
    ProductMonotone(k.link, l.link, w.link);
    WeightedNonNegative(k, w);
    QuotientMonotone(Weighted(k, w), Weighted(l, w), 10_000);
  }

  /** The score at every extreme: each respect counts its whole weight at its best and
      nothing at its worst, and a degraded link counts four tenths of its weight. */
  lemma ScoreAtExtremes(c: Candidate, q: Request, w: Weights, latency: bool, congestion: bool, liquidity: bool,
                        throughput: bool, speed: bool, cost: bool)
    requires Payable(q) && q.budget > 0 && ValidWeights(w)
    requires if latency then c.latencyMs == 0 else c.latencyMs >= 10_000
    requires c.congestionBps == (if congestion then 0 else 10_000)
    requires if liquidity then c.liquidity >= 2 * q.amount else c.liquidity == q.amount
    requires c.headroomBps == (if throughput then 10_000 else 0) && c.speedBps == (if speed then 10_000 else 0)
    requires c.estimatedCost == (if cost then 0 else q.budget)
    ensures Score(c, q, w) == (if latency then w.latency else 0) + (if congestion then w.congestion else 0)
                              + (if liquidity then w.liquidity else 0) + (if throughput then w.throughput else 0)
                              + (if speed then w.speed else 0) + (if cost then w.cost else 0)
                              + (if c.link == Up then w.link else 4 * w.link / 10)
  {
    hide ComponentsOf, Weighted;
    var k := ComponentsOf(c, q);
    LiquidityAtExtremes(c, q, liquidity);
    CostAtExtremes(c, q, cost);
    PlainAtExtremes(c, q);
    WeightedAtExtremes(k, w, latency, congestion, liquidity, throughput, speed, cost, c.link == Up);
  }

  lemma PlainAtExtremes(c: Candidate, q: Request)
    requires Payable(q)
    ensures var k := ComponentsOf(c, q);
            && (c.latencyMs == 0 ==> k.latency == 10_000) && (c.latencyMs >= 10_000 ==> k.latency == 0)
            && k.congestion == 10_000 - c.congestionBps && k.throughput == c.headroomBps && k.speed == c.speedBps
            && k.link == if c.link == Up then 10_000 else 4_000
  {
  }

  lemma LiquidityAtExtremes(c: Candidate, q: Request, best: bool)
    requires Payable(q) && if best then c.liquidity >= 2 * q.amount else c.liquidity == q.amount
    ensures ComponentsOf(c, q).liquidity == if best then 10_000 else 0
  {
    Whole(q.amount);
    if best { QuotientMonotone(q.amount * 10_000, (c.liquidity - q.amount) * 10_000, q.amount); }
  }

  lemma CostAtExtremes(c: Candidate, q: Request, best: bool)
    requires Payable(q) && q.budget > 0 && c.estimatedCost == if best then 0 else q.budget
    ensures ComponentsOf(c, q).cost == if best then 10_000 else 0
  {
    Whole(q.budget);
  }

  lemma WeightedAtExtremes(k: Components, w: Weights, latency: bool, congestion: bool, liquidity: bool,
                           throughput: bool, speed: bool, cost: bool, up: bool)
    requires k == Components(if latency then 10_000 else 0, if congestion then 10_000 else 0,
                             if liquidity then 10_000 else 0, if throughput then 10_000 else 0,
                             if speed then 10_000 else 0, if cost then 10_000 else 0, if up then 10_000 else 4_000)
    ensures Weighted(k, w) / 10_000
            == (if latency then w.latency else 0) + (if congestion then w.congestion else 0)
               + (if liquidity then w.liquidity else 0) + (if throughput then w.throughput else 0)
               + (if speed then w.speed else 0) + (if cost then w.cost else 0)
               + (if up then w.link else 4 * w.link / 10)
  {
    var sum := (if latency then w.latency else 0) + (if congestion then w.congestion else 0)
               + (if liquidity then w.liquidity else 0) + (if throughput then w.throughput else 0)
               + (if speed then w.speed else 0) + (if cost then w.cost else 0);
    Ten(k.latency, w.latency, latency);
    Ten(k.congestion, w.congestion, congestion);
    Ten(k.liquidity, w.liquidity, liquidity);
    Ten(k.throughput, w.throughput, throughput);
    Ten(k.speed, w.speed, speed);
    Ten(k.cost, w.cost, cost);
    assert Weighted(k, w) == 10_000 * sum + k.link * w.link;
    QuotientIs(Weighted(k, w), 10_000, sum + (if up then w.link else 4 * w.link / 10));
  }

  lemma Ten(rating: int, weight: int, best: bool)
    requires rating == if best then 10_000 else 0
    ensures rating * weight == 10_000 * if best then weight else 0
  {
  }

  lemma QuotientIs(n: int, d: int, k: int)
    requires 0 < d && k * d <= n < k * d + d
    ensures n / d == k
  {
    var x := n / d;
    assert x * d <= n < x * d + d;
    if x < k { ProductMonotone(x + 1, k, d); } else if k < x { ProductMonotone(k + 1, x, d); }
  }

  lemma Whole(n: int)
    requires n > 0
    ensures n * 10_000 / n == 10_000
  {
    QuotientIs(n * 10_000, n, 10_000);
  }

  /** The score is the mean of seven ratings under the weights, rounded down. Headroom and
      speed rate themselves, latency and congestion by what is missing to 10000, liquidity
      by the share of the amount that is left over, cost by the share of the budget that is
      saved (rounded up), an up link 10000 and a degraded one 4000. */
  lemma ScoreIsTheWeightedMean(c: Candidate, q: Request, w: Weights) returns (left: int, spent: int)
    requires Payable(q) && Normalized(c) && Eligible(c, q) && ValidWeights(w)
    ensures IsShare(left, c.liquidity - q.amount, q.amount)
    ensures if q.budget == 0 then spent == 0
            else spent * q.budget <= c.estimatedCost * 10_000 < spent * q.budget + q.budget
    ensures var total := (if c.latencyMs < 10_000 then 10_000 - c.latencyMs else 0) * w.latency
                         + (10_000 - c.congestionBps) * w.congestion + left * w.liquidity
                         + c.headroomBps * w.throughput + c.speedBps * w.speed + (10_000 - spent) * w.cost
                         + (if c.link == Up then 10_000 else 4_000) * w.link;
            Score(c, q, w) * 10_000 <= total < Score(c, q, w) * 10_000 + 10_000
  {
    var k := ComponentsOf(c, q);
    spent := if q.budget == 0 then 0 else c.estimatedCost * 10_000 / q.budget;
    if q.budget > 0 {
      QuotientMonotone(c.estimatedCost * 10_000, q.budget * 10_000, q.budget);
      Whole(q.budget);
    }
    left := k.liquidity;
    ShareOf(c.liquidity - q.amount, q.amount);
  }

  lemma ShareOf(part: int, whole: int)
    requires 0 <= part && 0 < whole
    ensures IsShare(Min(10_000, part * 10_000 / whole), part, whole)
  {
    Whole(whole);
    if whole <= part {
      QuotientMonotone(whole * 10_000, part * 10_000, whole);
    } else {
      QuotientMonotone(part * 10_000, whole * 10_000, whole);
    }
  }
}
