/** The fixed-window rate limiter of the API guard, and how much it can let
    through over any stretch of time. */
module RateLimit {
  import opened Prelude

  datatype Window = Window(start: int, count: nat, seconds: int)

  datatype Decision = Decision(allowed: bool, limit: int, remaining: int, resetAt: int)

  datatype PolicyError = LimitOutOfRange | WindowOutOfRange

  type Windows = map<string, Window>

  function Admit(current: Option<Window>, seconds: int, at: int): Window {
    if current.None? || current.value.start + current.value.seconds * SECOND <= at then Window(at, 1, seconds)
    else Window(current.value.start, current.value.count + 1, seconds)
  }

  function WindowOf(ws: Windows, scope: string): Option<Window> { if scope in ws then Some(ws[scope]) else None }

  function PolicyProblem(limit: int, seconds: int): Option<PolicyError> {
    if !(1 <= limit <= 10_000) then Some(LimitOutOfRange)
    else if !(1 <= seconds <= 3600) then Some(WindowOutOfRange)
    else None
  }

  function Consume(ws: Windows, scope: string, limit: int, seconds: int,
                   at: int): Result<(Windows, Decision), PolicyError>
  {
    if PolicyProblem(limit, seconds).Some? then Err(PolicyProblem(limit, seconds).value)
    else
      var w := Admit(WindowOf(ws, scope), seconds, at);
      Ok((ws[scope := w], Decision(w.count <= limit, limit, Max(0, limit - w.count), w.start + seconds * SECOND)))
  }

  class InMemoryRateLimitStore {
    var windows: Windows

    constructor ()
      ensures windows == map[]
    {
      windows := map[];
    }

    method ConsumeOne(scope: string, limit: int, seconds: int, at: int) returns (r: Result<Decision, PolicyError>)
      modifies this
      ensures match Consume(old(windows), scope, limit, seconds, at)
              case Ok((ws, d)) => r == Ok(d) && windows == ws
              case Err(e) => r == Err(e) && windows == old(windows)
    {
      if !(1 <= limit <= 10_000) {
        return Err(LimitOutOfRange);
      }
      if !(1 <= seconds <= 3600) {
        return Err(WindowOutOfRange);
      }
      var start, count := at, 1;
      if scope in windows && at < windows[scope].start + windows[scope].seconds * SECOND {
        start, count := windows[scope].start, windows[scope].count + 1;
      }
      windows := windows[scope := Window(start, count, seconds)];
      r := Ok(Decision(count <= limit, limit, Max(0, limit - count), start + seconds * SECOND));
    }
  }

  // ------------------------------------------------------------------- runs

  datatype Call = Call(scope: string, limit: int, seconds: int, at: int)

  /** What one call of the watched scope got: its instant, the window it fell into
      and the decision. */
  datatype Mark = Mark(at: int, start: int, count: nat, decision: Decision)

  /** Every call in order, all scopes together; marks are kept for one scope. */
  function Trace(ws: Windows, calls: seq<Call>, scope: string): seq<Mark>
    decreases |calls|
  {
    if calls == [] then []
    else
      var c := calls[0];
      match Consume(ws, c.scope, c.limit, c.seconds, c.at)
      case Err(_) => Trace(ws, calls[1..], scope)
      case Ok((ws', d)) =>
        (if c.scope == scope then [Mark(c.at, ws'[scope].start, ws'[scope].count, d)] else [])
        + Trace(ws', calls[1..], scope)
  }

  /** The scope keeps one policy and its calls come in order of time. */
  ghost predicate Steady(calls: seq<Call>, scope: string, limit: int, seconds: int) {
    && 1 <= limit <= 10_000 && 1 <= seconds <= 3600
    && (forall i :: 0 <= i < |calls| && calls[i].scope == scope ==>
          calls[i].limit == limit && calls[i].seconds == seconds)
    && (forall i, j :: 0 <= i < j < |calls| && calls[i].scope == calls[j].scope == scope ==> calls[i].at <= calls[j].at)
  }

  /** From one call of a scope to its next: the same window counted on, or a new one
      opened because the old one had ended. */
  ghost predicate NextMark(previous: Option<Window>, m: Mark, limit: int, seconds: int) {
    && m.start <= m.at < m.start + seconds * SECOND && m.decision.allowed == (m.count <= limit)
    && m.decision.resetAt == m.start + seconds * SECOND && m.decision.remaining == Max(0, limit - m.count)
    && if previous.Some? && m.at < previous.value.start + seconds * SECOND
       then m.start == previous.value.start && m.count == previous.value.count + 1
       else m.start == m.at && m.count == 1
  }

  ghost predicate Chain(previous: Option<Window>, ms: seq<Mark>, limit: int, seconds: int)
    decreases |ms|
  {
    ms == [] || (NextMark(previous, ms[0], limit, seconds)
                 && Chain(Some(Window(ms[0].start, ms[0].count, seconds)), ms[1..], limit, seconds))
  }

  lemma {:induction false} TraceIsChain(ws: Windows, calls: seq<Call>, scope: string, limit: int, seconds: int)
    requires Steady(calls, scope, limit, seconds)
    requires scope in ws ==>
               && ws[scope].seconds == seconds
               && forall i :: 0 <= i < |calls| && calls[i].scope == scope ==> ws[scope].start <= calls[i].at
    ensures Chain(WindowOf(ws, scope), Trace(ws, calls, scope), limit, seconds)
    ensures forall m :: m in Trace(ws, calls, scope) ==>
              exists i :: 0 <= i < |calls| && calls[i].scope == scope && calls[i].at == m.at
    decreases |calls|
  {
    if calls != [] {
      var c := calls[0];
      var rest := calls[1..];
      assert forall i :: 0 <= i < |rest| ==> rest[i] == calls[i + 1];
      match Consume(ws, c.scope, c.limit, c.seconds, c.at)
      case Err(_) => TraceIsChain(ws, rest, scope, limit, seconds);
      case Ok((ws', d)) =>
        TraceIsChain(ws', rest, scope, limit, seconds);
        var tail := Trace(ws', rest, scope);
        if c.scope == scope {
          assert Trace(ws, calls, scope)[1..] == tail;
        } else {
          assert Trace(ws, calls, scope) == tail;
        }
    }
  }

  // ---------------------------------------------------------- along the chain

  /** Along a chain times do not fall, and each mark counts on in its window or
      belongs to one that starts after the earlier window has ended. */
  ghost predicate Later(a: Mark, b: Mark, seconds: int) {
    (a.start == b.start && a.count < b.count) || a.start + seconds * SECOND <= b.start
  }

  lemma {:induction false} ChainFollows(previous: Window, ms: seq<Mark>, limit: int, seconds: int, j: nat)
    requires Chain(Some(previous), ms, limit, seconds) && j < |ms| && seconds >= 1
    ensures ms[j].start <= ms[j].at < ms[j].start + seconds * SECOND && 1 <= ms[j].count
    ensures ms[j].decision.allowed == (ms[j].count <= limit)
    ensures || (previous.start == ms[j].start && previous.count < ms[j].count)
            || previous.start + seconds * SECOND <= ms[j].start
    decreases |ms|
  {
    if j > 0 {
      ChainFollows(Window(ms[0].start, ms[0].count, seconds), ms[1..], limit, seconds, j - 1);
    }
  }

  lemma {:induction false} ChainOrders(previous: Option<Window>, ms: seq<Mark>, limit: int, seconds: int, i: nat,
                                       j: nat)
    requires Chain(previous, ms, limit, seconds) && i < j < |ms| && seconds >= 1
    ensures Later(ms[i], ms[j], seconds)
    decreases |ms|
  {
    var next := Window(ms[0].start, ms[0].count, seconds);
    if i == 0 {
      ChainFollows(next, ms[1..], limit, seconds, j - 1);
    } else {
      ChainOrders(Some(next), ms[1..], limit, seconds, i - 1, j - 1);
    }
  }

  lemma {:induction false} ChainAt(previous: Option<Window>, ms: seq<Mark>, limit: int, seconds: int, j: nat)
    requires Chain(previous, ms, limit, seconds) && j < |ms|
    ensures NextMark(if j == 0 then previous else Some(Window(ms[j - 1].start, ms[j - 1].count, seconds)), ms[j],
                     limit, seconds)
    decreases |ms|
  {
    if j > 0 { ChainAt(Some(Window(ms[0].start, ms[0].count, seconds)), ms[1..], limit, seconds, j - 1); }
  }

  // ------------------------------------------------------------------- bounds

  ghost function AdmittedIn(ms: seq<Mark>, from: int, to: int): set<int> {
    set i | 0 <= i < |ms| && ms[i].decision.allowed && from <= ms[i].at <= to
  }

  ghost function AdmittedBy(ms: seq<Mark>, start: int): set<int> {
    set i | 0 <= i < |ms| && ms[i].decision.allowed && ms[i].start == start
  }

  /** Distinct counts between one and a bound are no more than the bound. */
  lemma {:induction false} CountsFit(ms: seq<Mark>, s: set<int>, bound: nat)
    requires forall i :: i in s ==> 0 <= i < |ms| && 1 <= ms[i].count <= bound
    requires forall i, j :: i in s && j in s && i < j ==> ms[i].count != ms[j].count
    ensures |s| <= bound
    decreases bound
  {
    if bound == 0 {
      assert forall i :: i !in s;
      assert s == {};
    } else if i :| i in s && ms[i].count == bound {
      CountsFit(ms, s - {i}, bound - 1);
    } else {
      CountsFit(ms, s, bound - 1);
    }
  }

  lemma {:induction false} WindowBound(ms: seq<Mark>, limit: nat, seconds: int, start: int)
    requires Chain(None, ms, limit, seconds) && 1 <= seconds
    ensures |AdmittedBy(ms, start)| <= limit
  {
    var s := AdmittedBy(ms, start);
    forall i | i in s ensures 1 <= ms[i].count <= limit { ChainAt(None, ms, limit, seconds, i); }
    forall i, j | i in s && j in s && i < j ensures ms[i].count != ms[j].count {
      ChainOrders(None, ms, limit, seconds, i, j);
    }
    CountsFit(ms, s, limit);
  }

  /** A stretch of one window length touches at most two windows. */
  lemma {:induction false} StretchBound(ms: seq<Mark>, limit: nat, seconds: int, from: int)
    requires Chain(None, ms, limit, seconds) && 1 <= seconds
    ensures |AdmittedIn(ms, from, from + seconds * SECOND)| <= 2 * limit
  {
    var all := AdmittedIn(ms, from, from + seconds * SECOND);
    if a :| a in all {
      var first := AdmittedBy(ms, ms[a].start);
      WindowBound(ms, limit, seconds, ms[a].start);
      if b :| b in all && b !in first {
        var second := AdmittedBy(ms, ms[b].start);
        WindowBound(ms, limit, seconds, ms[b].start);
        forall c | c in all ensures c in first + second { TwoWindows(ms, limit, seconds, from, a, b, c); }
        assert all <= first + second;
        FitsInUnion(all, first, second);
      } else {
        assert all <= first + {};
        FitsInUnion(all, first, {});
      }
    }
  }

  lemma FitsInUnion(s: set<int>, a: set<int>, b: set<int>)
    requires s <= a + b
    ensures |s| <= |a| + |b|
  {
    var t := a + b;
    assert s + (t - s) == t && s * (t - s) == {};
    assert |s + (t - s)| + |s * (t - s)| == |s| + |t - s|;
    assert |a + b| + |a * b| == |a| + |b|;
  }

  /** Windows are a full length apart, so a third one cannot reach into the stretch. */
  lemma {:induction false} TwoWindows(ms: seq<Mark>, limit: int, seconds: int, from: int, a: int, b: int, c: int)
    requires Chain(None, ms, limit, seconds) && 1 <= seconds
    requires var all := AdmittedIn(ms, from, from + seconds * SECOND); a in all && b in all && c in all
    requires ms[b].start != ms[a].start
    ensures ms[c].start == ms[a].start || ms[c].start == ms[b].start
  {
    hide Chain;
    ApartOrSame(ms, limit, seconds, a, b);
    ApartOrSame(ms, limit, seconds, a, c);
    ApartOrSame(ms, limit, seconds, b, c);
  }

  lemma {:induction false} ApartOrSame(ms: seq<Mark>, limit: int, seconds: int, i: int, j: int)
    requires Chain(None, ms, limit, seconds) && 1 <= seconds && 0 <= i < |ms| && 0 <= j < |ms|
    ensures || ms[i].start == ms[j].start || ms[i].start + seconds * SECOND <= ms[j].start
            || ms[j].start + seconds * SECOND <= ms[i].start
    ensures ms[i].start <= ms[i].at < ms[i].start + seconds * SECOND
    ensures ms[j].start <= ms[j].at < ms[j].start + seconds * SECOND
  {
    ChainAt(None, ms, limit, seconds, i);
    ChainAt(None, ms, limit, seconds, j);
    if i < j { ChainOrders(None, ms, limit, seconds, i, j); }
    if j < i { ChainOrders(None, ms, limit, seconds, j, i); }
  }

  /** For every run of calls over all scopes, where one scope keeps its policy and
      its calls do not go back in time: a window admits at most the limit, any closed
      stretch of one window length at most twice the limit, and a call at or after the
      reset the previous call announced is admitted, however many were refused. */
  lemma {:induction false} LimitHolds(calls: seq<Call>, scope: string, limit: nat, seconds: int, from: int, j: nat)
    requires Steady(calls, scope, limit, seconds)
    ensures var ms := Trace(map[], calls, scope);
            && |AdmittedBy(ms, from)| <= limit
            && |AdmittedIn(ms, from, from + seconds * SECOND)| <= 2 * limit
            && (1 <= j < |ms| && ms[j].at >= ms[j - 1].decision.resetAt ==>
                  ms[j].decision.allowed && ms[j].count == 1 && ms[j].start == ms[j].at)
            && (1 <= j < |ms| && ms[j].at < ms[j - 1].decision.resetAt ==>
                  ms[j].count == ms[j - 1].count + 1 && ms[j].decision.resetAt == ms[j - 1].decision.resetAt)
  {
    var ms := Trace(map[], calls, scope);
    TraceIsChain(map[], calls, scope, limit, seconds);
    hide Chain, Trace, Steady;
    assert 1 <= limit && 1 <= seconds by { PolicyOf(calls, scope, limit, seconds); }
    WindowBound(ms, limit, seconds, from);
    StretchBound(ms, limit, seconds, from);
    if 1 <= j < |ms| {
      ChainAt(None, ms, limit, seconds, j);
      ChainAt(None, ms, limit, seconds, j - 1);
    }
  }

  lemma PolicyOf(calls: seq<Call>, scope: string, limit: int, seconds: int)
    requires Steady(calls, scope, limit, seconds)
    ensures 1 <= limit <= 10_000 && 1 <= seconds <= 3600
  {
  }

  /** A policy is refused exactly outside 1 to 10000 calls and 1 to 3600 seconds, the limit
      first; a refusal changes nothing, and a call of one scope never touches another. */
  lemma PoliciesAreBounded(ws: Windows, scope: string, limit: int, seconds: int, at: int)
    ensures var r := Consume(ws, scope, limit, seconds, at);
            && (r == Err(LimitOutOfRange) <==> limit < 1 || 10_000 < limit)
            && (r == Err(WindowOutOfRange) <==> 1 <= limit <= 10_000 && (seconds < 1 || 3600 < seconds))
            && (r.Ok? ==> && r.value.1.limit == limit
                          && forall other :: other != scope ==>
                               (other in r.value.0 <==> other in ws)
                               && (other in ws ==> r.value.0[other] == ws[other]))
  {
  }

  ghost function CallsOf(calls: seq<Call>, scope: string): nat {
    if calls == [] then 0 else (if calls[0].scope == scope then 1 else 0) + CallsOf(calls[1..], scope)
  }

  /** Under a valid policy every call of the scope is decided, the first one is admitted, and
      a call is admitted exactly while its window has not counted beyond the limit. */
  lemma {:induction false} EveryCallIsDecided(calls: seq<Call>, scope: string, limit: nat, seconds: int)
    requires Steady(calls, scope, limit, seconds)
    ensures var ms := Trace(map[], calls, scope);
            && |ms| == CallsOf(calls, scope)
            && (ms != [] ==> ms[0].count == 1 && ms[0].start == ms[0].at && ms[0].decision.allowed)
            && (forall j :: 0 <= j < |ms| ==>
                  && ms[j].decision.allowed == (ms[j].count <= limit)
                  && ms[j].decision.remaining == (if ms[j].count < limit then limit - ms[j].count else 0)
                  && ms[j].decision.resetAt == ms[j].start + seconds * 1_000_000)
  {
    var ms := Trace(map[], calls, scope);
    TraceIsChain(map[], calls, scope, limit, seconds);
    TraceIsComplete(map[], calls, scope, limit, seconds);
    if ms != [] { ChainAt(None, ms, limit, seconds, 0); }
    forall j | 0 <= j < |ms| ensures
      && ms[j].decision.allowed == (ms[j].count <= limit)
      && ms[j].decision.remaining == (if ms[j].count < limit then limit - ms[j].count else 0)
      && ms[j].decision.resetAt == ms[j].start + seconds * 1_000_000 {
      ChainAt(None, ms, limit, seconds, j);
    }
  }

  lemma {:induction false} TraceIsComplete(ws: Windows, calls: seq<Call>, scope: string, limit: int, seconds: int)
    requires Steady(calls, scope, limit, seconds)
    ensures |Trace(ws, calls, scope)| == CallsOf(calls, scope)
    decreases |calls|
  {
    if calls != [] {
      var c, rest := calls[0], calls[1..];
      assert forall i :: 0 <= i < |rest| ==> rest[i] == calls[i + 1];
      match Consume(ws, c.scope, c.limit, c.seconds, c.at)
      case Err(_) => TraceIsComplete(ws, rest, scope, limit, seconds);
      case Ok((ws', _)) => TraceIsComplete(ws', rest, scope, limit, seconds);
    }
  }
}
