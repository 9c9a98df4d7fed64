/** Request-weight pacing: the client's estimate against the server's per-minute counter. */
module Pacing {
  const RATE_LIMIT_RETRIES := 10

  const HTTP_RETRIES := 3

  /** `max(1, int(limit * safety))`; a non-positive product gives 1 however it is truncated. */
  function Threshold(limit: int, safety: real): (t: int)
    ensures var share := (limit as real) * safety;
            if share < 1.0 then t == 1 else t as real <= share < t as real + 1.0
  {
    var t := ((limit as real) * safety).Floor;
    if t < 1 then 1 else t
  }

  // --- time and the server ---------------------------------------------------------------------

  function Minute(t: real): int {
    (t / 60.0).Floor
  }

  /** `60 - (clock() % 60) + 1`. */
  function Wait(t: real): (w: real)
    ensures 1.0 < w <= 61.0
  {
    60.0 - (t - 60.0 * Minute(t) as real) + 1.0
  }

  /** What becomes of one attempt. A lost one may or may not have reached the server; a cut-off one
      has lost its body after the headers were read. */
  datatype Outcome = Success | NotFound | RateLimited(retryAfter: nat) | ServerError | CutOff | Lost(counted: bool)

  /** The environment's choices for one attempt: delays, the request's weight, its outcome, and
      whether the response carries a readable weight header. */
  datatype Try = Try(oversleep: real, travel: real, back: real, weight: nat, outcome: Outcome, header: bool)

  predicate Timed(t: Try) {
    t.oversleep >= 0.0 && t.travel >= 0.0 && t.back >= 0.0
  }

  /** A response was read, so its headers were looked at. */
  predicate Read(t: Try) {
    t.header && (t.outcome.Success? || t.outcome.RateLimited? || t.outcome.ServerError? || t.outcome.CutOff?)
  }

  /** The client has been shown the count: a response with a readable header arrived, and it was no 404. */
  predicate Shown(t: Try) {
    t.header && !t.outcome.NotFound? && !t.outcome.Lost?
  }

  /** One request as the server counted it: the minute's count just after, and how many counted
      requests in a row, this one included, the client had not seen the count of. */
  datatype Hit = Hit(minute: int, count: int, unseen: nat)

  /** The time, and the server's counter for the minute it last counted in; `hits` and `unseen`
      are history variables. */
  datatype Wire = Wire(now: real, minute: int, count: nat, unseen: nat, hits: seq<Hit>)

  /** The count once the server has counted a request of this weight. */
  function Count(w: Wire, weight: nat): nat {
    if Minute(w.now) == w.minute then w.count + weight else weight
  }

  /** The attempt on the server's side. */
  function Serve(w: Wire, t: Try): Wire {
    var sent := w.(now := w.now + t.travel);
    var c := if t.outcome == Lost(false) then sent
             else
               var count := Count(sent, t.weight);
               Wire(sent.now, Minute(sent.now), count, if Shown(t) then 0 else w.unseen + 1,
                    w.hits + [Hit(Minute(sent.now), count, w.unseen + 1)]);
    c.(now := c.now + t.back)
  }

  // --- the client -------------------------------------------------------------------------------

  /** `throttle`: the time afterwards, and the estimate. */
  function AfterThrottle(now: real, used: int, threshold: int, oversleep: real): (r: (real, int)) {
    if used < threshold then (now, used) else (now + Wait(now) + oversleep, 0)
  }

  datatype Client = Client(wire: Wire, used: int)

  function Throttled(c: Client, threshold: int, t: Try): Client {
    var (now, used) := AfterThrottle(c.wire.now, c.used, threshold, t.oversleep);
    Client(c.wire.(now := now), used)
  }

  /** One pass of the loop up to the response: throttle, send, observe. */
  function Attempt(c: Client, threshold: int, t: Try): Client {
    var p := Throttled(c, threshold, t);
    var w := Serve(p.wire, t);
    Client(w, if Read(t) then w.count else p.used)
  }

  function Backoff(retryAfter: nat): (wait: nat)
    ensures wait <= retryAfter && wait <= 120
  {
    if retryAfter < 120 then retryAfter else 120
  }

  datatype Result = Body | Absent | Raised

  type Script = nat -> Try

  datatype Call = Call(client: Client, result: Result, attempts: nat)

  /** The sleep after a rate-limit answer. */
  function BackedOff(c: Client, after: nat): Client {
    c.(wire := c.wire.(now := c.wire.now + Backoff(after) as real))
  }

  /** The loop of `_get` from attempt `n` on. */
  function GetFrom(c: Client, threshold: int, script: Script, retries: nat, n: nat, network: nat,
                   throttled: nat): (r: Call)
    ensures r.attempts >= n
    decreases retries - network, RATE_LIMIT_RETRIES - throttled
  {
    if !(network < retries && throttled < RATE_LIMIT_RETRIES) then Call(c, Raised, n)
    else
      var d := Attempt(c, threshold, script(n));
      match script(n).outcome
      case Success => Call(d, Body, n + 1)
      case NotFound => Call(d, Absent, n + 1)
      case RateLimited(after) =>
        GetFrom(BackedOff(d, after), threshold, script, retries, n + 1, network, throttled + 1)
      case ServerError => GetFrom(d, threshold, script, retries, n + 1, network + 1, throttled)
      case CutOff => GetFrom(d, threshold, script, retries, n + 1, network + 1, throttled)
      case Lost(_) => GetFrom(d, threshold, script, retries, n + 1, network + 1, throttled)
  }

  function Get(c: Client, threshold: int, script: Script, retries: nat): Call {
    GetFrom(c, threshold, script, retries, 0, 0, 0)
  }

  /** The calls of one bridge, sharing its pacer. A call that raises ends the bridge, and so does one
      answered 404, which pages nothing. */
  function Gets(c: Client, threshold: int, scripts: seq<Script>, retries: nat): Client
    decreases |scripts|
  {
    if scripts == [] then c
    else
      var r := Get(c, threshold, scripts[0], retries);
      if r.result != Body then r.client else Gets(r.client, threshold, scripts[1..], retries)
  }

  // --- each pacing sleep lands in a later minute ---------------------------------------------------

  lemma FloorAbove(x: real, k: int)
    requires x >= k as real
    ensures x.Floor >= k
  {
  }

  /** The sleep is to one second past the next clock-minute boundary, and ends in a later minute however
      much longer it lasts. */
  lemma SleepLandsLater(t: real, oversleep: real)
    requires oversleep >= 0.0
    ensures 60.0 * Minute(t) as real <= t < 60.0 * (Minute(t) + 1) as real
    ensures t + Wait(t) == 60.0 * (Minute(t) + 1) as real + 1.0
    ensures Minute(t + Wait(t) + oversleep) > Minute(t)
  {
    var m := Minute(t);
    assert (t + Wait(t) + oversleep) / 60.0 >= (m + 1) as real;
    FloorAbove((t + Wait(t) + oversleep) / 60.0, m + 1);
  }

  lemma LaterMinute(a: real, b: real)
    requires a <= b
    ensures Minute(a) <= Minute(b)
  {
    assert a / 60.0 <= b / 60.0;
    FloorAbove(b / 60.0, Minute(a));
  }

  // --- requests per call ---------------------------------------------------------------------------

  lemma {:induction false} AttemptsLeft(c: Client, threshold: int, script: Script, retries: nat, n: nat, network: nat,
                                        throttled: nat)
    requires network <= retries && throttled <= RATE_LIMIT_RETRIES && n == network + throttled
    ensures GetFrom(c, threshold, script, retries, n, network, throttled).attempts
            <= if network < retries && throttled < RATE_LIMIT_RETRIES then retries + RATE_LIMIT_RETRIES - 1 else n
    decreases retries - network, RATE_LIMIT_RETRIES - throttled
  {
    if network < retries && throttled < RATE_LIMIT_RETRIES {
      hide Attempt, BackedOff;
      var d := Attempt(c, threshold, script(n));
      match script(n).outcome
      case Success =>
      case NotFound =>
      case RateLimited(after) =>
        AttemptsLeft(BackedOff(d, after), threshold, script, retries, n + 1, network, throttled + 1);
      case ServerError => AttemptsLeft(d, threshold, script, retries, n + 1, network + 1, throttled);
      case CutOff => AttemptsLeft(d, threshold, script, retries, n + 1, network + 1, throttled);
      case Lost(_) => AttemptsLeft(d, threshold, script, retries, n + 1, network + 1, throttled);
    }
  }

  /** One call issues at most retries + RATE_LIMIT_RETRIES - 1 requests, whatever the server does. */
  lemma GetAttempts(c: Client, threshold: int, script: Script, retries: nat)
    requires retries >= 1
    ensures Get(c, threshold, script, retries).attempts <= retries + RATE_LIMIT_RETRIES - 1
  {
    AttemptsLeft(c, threshold, script, retries, 0, 0, 0);
  }

  // --- how a call ends -----------------------------------------------------------------------------

  /** The answers that end a call: a success or a 404. */
  predicate Answers(t: Try) {
    t.outcome.Success? || t.outcome.NotFound?
  }

  /** The errors and losses among the first `n` attempts. */
  function Errors(script: Script, n: nat): nat {
    if n == 0 then 0
    else
      var o := script(n - 1).outcome;
      Errors(script, n - 1) + if o.ServerError? || o.CutOff? || o.Lost? then 1 else 0
  }

  /** The rate-limit answers among the first `n` attempts. */
  function Throttles(script: Script, n: nat): nat {
    if n == 0 then 0 else Throttles(script, n - 1) + if script(n - 1).outcome.RateLimited? then 1 else 0
  }

  /** After `n` attempts each budget has something left. */
  predicate CanRetry(script: Script, retries: nat, n: nat) {
    Errors(script, n) < retries && Throttles(script, n) < 10
  }

  /** Attempt `n` is the first answer, and comes while both budgets last. */
  predicate AnsweredAt(script: Script, retries: nat, n: nat) {
    Answers(script(n)) && CanRetry(script, retries, n) && forall k: nat :: k < n ==> !Answers(script(k))
  }

  /** How a call that made `r.attempts` requests came to an end. */
  predicate Ended(script: Script, retries: nat, r: Call) {
    if r.result == Raised then
      !CanRetry(script, retries, r.attempts) && forall k: nat :: k < r.attempts ==> !Answers(script(k))
    else
      && r.attempts > 0 && AnsweredAt(script, retries, r.attempts - 1)
      && (r.result == Body <==> script(r.attempts - 1).outcome.Success?)
  }

  lemma CountsStep(script: Script, n: nat)
    ensures var o := script(n).outcome;
            && Errors(script, n + 1) == Errors(script, n) + (if o.ServerError? || o.CutOff? || o.Lost? then 1 else 0)
            && Throttles(script, n + 1) == Throttles(script, n) + if o.RateLimited? then 1 else 0
  {
  }

  lemma {:induction false} EndsFrom(c: Client, threshold: int, script: Script, retries: nat, n: nat)
    requires forall k: nat :: k < n ==> !Answers(script(k))
    requires Errors(script, n) <= retries && Throttles(script, n) <= RATE_LIMIT_RETRIES
    ensures Ended(script, retries,
                  GetFrom(c, threshold, script, retries, n, Errors(script, n), Throttles(script, n)))
    decreases retries - Errors(script, n), RATE_LIMIT_RETRIES - Throttles(script, n)
  {
    hide Attempt, BackedOff, Errors, Throttles;
    if CanRetry(script, retries, n) {
      CountsStep(script, n);
      var d := Attempt(c, threshold, script(n));
      match script(n).outcome
      case Success =>
      case NotFound =>
      case RateLimited(after) => EndsFrom(BackedOff(d, after), threshold, script, retries, n + 1);
      case ServerError => EndsFrom(d, threshold, script, retries, n + 1);
      case CutOff => EndsFrom(d, threshold, script, retries, n + 1);
      case Lost(_) => EndsFrom(d, threshold, script, retries, n + 1);
    }
  }

  lemma {:induction false} BudgetsShrink(script: Script, retries: nat, m: nat, n: nat)
    requires m <= n && CanRetry(script, retries, n)
    ensures CanRetry(script, retries, m)
    decreases n
  {
    if m < n {
      BudgetsShrink(script, retries, m, n - 1);
    }
  }

  /** A call succeeds, or finds nothing, exactly if an answer comes before its errors and losses use up
      the network budget and its rate-limit answers their own; it then makes no further request.
      Otherwise it raises. */
  lemma CallSucceedsIff(c: Client, threshold: int, script: Script, retries: nat)
    ensures var r := Get(c, threshold, script, retries);
            && (r.result != Raised <==> exists n: nat :: AnsweredAt(script, retries, n))
            && (forall n: nat :: AnsweredAt(script, retries, n) ==>
                  r.attempts == n + 1 && r.result == if script(n).outcome.Success? then Body else Absent)
  {
    hide CanRetry, GetFrom;
    var r := Get(c, threshold, script, retries);
    EndsFrom(c, threshold, script, retries, 0);
    if r.result != Raised {
      assert AnsweredAt(script, retries, r.attempts - 1);
    }
    forall n: nat | AnsweredAt(script, retries, n)
      ensures r.result != Raised && r.attempts == n + 1
    {
      if r.result == Raised && r.attempts <= n {
        BudgetsShrink(script, retries, r.attempts, n);
      }
    }
  }

  // --- the server's waits are kept -------------------------------------------------------------------

  /** What the rate-limit answers among the first `n` attempts ask for, each up to two minutes. */
  function Asked(script: Script, n: nat): nat {
    if n == 0 then 0
    else Asked(script, n - 1) + match script(n - 1).outcome {
           case RateLimited(after) => if after < 120 then after else 120
           case _ => 0 }
  }

  lemma AskedStep(script: Script, n: nat, c: Client)
    ensures match script(n).outcome
            case RateLimited(after) =>
              BackedOff(c, after).wire.now - c.wire.now >= (Asked(script, n + 1) - Asked(script, n)) as real
            case _ => Asked(script, n + 1) == Asked(script, n)
  {
  }

  lemma AttemptTakesTime(c: Client, threshold: int, t: Try)
    requires Timed(t)
    ensures Attempt(c, threshold, t).wire.now >= c.wire.now
  {
  }

  lemma {:induction false} WaitsFrom(c: Client, threshold: int, script: Script, retries: nat, n: nat, network: nat,
                                     throttled: nat)
    requires forall k: nat {:trigger script(k)} :: Timed(script(k))
    ensures var r := GetFrom(c, threshold, script, retries, n, network, throttled);
            r.client.wire.now - c.wire.now >= (Asked(script, r.attempts) - Asked(script, n)) as real
    decreases retries - network, RATE_LIMIT_RETRIES - throttled
  {
    hide Attempt, BackedOff, Asked;
    if network < retries && throttled < RATE_LIMIT_RETRIES {
      var d := Attempt(c, threshold, script(n));
      AttemptTakesTime(c, threshold, script(n));
      AskedStep(script, n, d);
      match script(n).outcome
      case Success =>
      case NotFound =>
      case RateLimited(after) =>
        WaitsFrom(BackedOff(d, after), threshold, script, retries, n + 1, network, throttled + 1);
      case ServerError => WaitsFrom(d, threshold, script, retries, n + 1, network + 1, throttled);
      case CutOff => WaitsFrom(d, threshold, script, retries, n + 1, network + 1, throttled);
      case Lost(_) => WaitsFrom(d, threshold, script, retries, n + 1, network + 1, throttled);
    }
  }

  /** A call lasts at least as long as the server asked it to wait. */
  lemma {:induction false} CallKeepsWaits(c: Client, threshold: int, script: Script, retries: nat)
    requires forall k: nat {:trigger script(k)} :: Timed(script(k))
    ensures var r := Get(c, threshold, script, retries);
            r.client.wire.now - c.wire.now >= Asked(script, r.attempts) as real
  {
    WaitsFrom(c, threshold, script, retries, 0, 0, 0);
  }

  // --- the server's count ----------------------------------------------------------------------------

  function Max(a: int, b: int): int {
    if a < b then b else a
  }

  /** The count of the running minute is at most the estimate, or what the server had already counted
      at the start, plus what the client has not seen. */
  predicate Level(c: Client, top: nat, start: nat) {
    && c.wire.minute <= Minute(c.wire.now)
    && (c.wire.minute == Minute(c.wire.now) ==> c.wire.count <= Max(c.used, start) + c.wire.unseen * top)
  }

  /** Each request left the count at most at the ceiling plus its stretch of unseen requests. */
  predicate Bounded(hits: seq<Hit>, ceiling: int, top: nat) {
    forall i :: 0 <= i < |hits| ==> hits[i].count <= ceiling + hits[i].unseen * top
  }

  lemma Scale(k: nat, w: nat, top: nat)
    requires w <= top
    ensures k * top + w <= (k + 1) * top
  {
  }

  lemma ThrottleKeepsLevel(c: Client, threshold: int, t: Try, top: nat, start: nat)
    requires Level(c, top, start) && threshold >= 1 && Timed(t)
    ensures var p := Throttled(c, threshold, t);
            && Level(p, top, start) && p.used < threshold
            && p.wire == c.wire.(now := p.wire.now) && p.wire.now >= c.wire.now
  {
    if c.used >= threshold {
      SleepLandsLater(c.wire.now, t.oversleep);
    }
  }

  lemma ServeKeepsLevel(p: Client, threshold: int, t: Try, top: nat, start: nat)
    requires Level(p, top, start) && p.used < threshold && threshold >= 1 && Timed(t) && t.weight <= top
    ensures var w := Serve(p.wire, t);
            && Level(Client(w, if Read(t) then w.count else p.used), top, start)
            && (t.outcome != Lost(false) ==> w.count <= Max(threshold - 1, start) + (p.wire.unseen + 1) * top)
  {
    var sent := p.wire.(now := p.wire.now + t.travel);
    LaterMinute(p.wire.now, sent.now);
    LaterMinute(sent.now, sent.now + t.back);
    Scale(p.wire.unseen, t.weight, top);
  }

  lemma AttemptKeeps(c: Client, threshold: int, t: Try, top: nat, start: nat)
    requires Level(c, top, start) && threshold >= 1 && Timed(t) && t.weight <= top
    requires Bounded(c.wire.hits, Max(threshold - 1, start), top)
    ensures var d := Attempt(c, threshold, t);
            Level(d, top, start) && Bounded(d.wire.hits, Max(threshold - 1, start), top)
  {
    ThrottleKeepsLevel(c, threshold, t, top, start);
    var p := Throttled(c, threshold, t);
    ServeKeepsLevel(p, threshold, t, top, start);
  }

  /** The environment's side for one call: delays pass forwards, and no request weighs more than `top`. */
  ghost predicate Sound(script: Script, top: nat) {
    forall n: nat {:trigger script(n)} :: Timed(script(n)) && script(n).weight <= top
  }

  /** Every response carries a readable weight header. */
  ghost predicate Visible(script: Script) {
    forall n: nat {:trigger script(n)} :: script(n).header
  }

  lemma BackoffKeeps(c: Client, wait: nat, top: nat, start: nat)
    requires Level(c, top, start)
    ensures Level(c.(wire := c.wire.(now := c.wire.now + wait as real)), top, start)
  {
    LaterMinute(c.wire.now, c.wire.now + wait as real);
  }

  /** Any number of rate-limit backoffs and retries keeps a call's counts bounded. */
  lemma {:induction false} CallKeeps(c: Client, threshold: int, script: Script, retries: nat, n: nat, network: nat,
                                     throttled: nat,
                                     top: nat, start: nat)
    requires Level(c, top, start) && threshold >= 1 && Sound(script, top)
    requires Bounded(c.wire.hits, Max(threshold - 1, start), top)
    ensures var r := GetFrom(c, threshold, script, retries, n, network, throttled).client;
            Level(r, top, start) && Bounded(r.wire.hits, Max(threshold - 1, start), top)
    decreases retries - network, RATE_LIMIT_RETRIES - throttled
  {
    hide Level, Bounded, Attempt;
    if network < retries && throttled < RATE_LIMIT_RETRIES {
      var d := Attempt(c, threshold, script(n));
      AttemptKeeps(c, threshold, script(n), top, start);
      match script(n).outcome
      case Success =>
      case NotFound =>
      case RateLimited(after) =>
        BackoffKeeps(d, Backoff(after), top, start);
        CallKeeps(BackedOff(d, after), threshold, script, retries, n + 1,
                  network, throttled + 1, top, start);
      case ServerError => CallKeeps(d, threshold, script, retries, n + 1, network + 1, throttled, top, start);
      case CutOff => CallKeeps(d, threshold, script, retries, n + 1, network + 1, throttled, top, start);
      case Lost(_) => CallKeeps(d, threshold, script, retries, n + 1, network + 1, throttled, top, start);
    }
  }

  ghost predicate AllSound(scripts: seq<Script>, top: nat) {
    forall i :: 0 <= i < |scripts| ==> Sound(scripts[i], top)
  }

  ghost predicate AllVisible(scripts: seq<Script>) {
    forall i :: 0 <= i < |scripts| ==> Visible(scripts[i])
  }

  /** Whatever the responses, losses, headers and delays: each request leaves the server's count for
      its minute at most threshold - 1, or what the minute started with, plus top for each counted
      request, itself included, since the client last read a count. */
  lemma {:induction false} CountBound(c: Client, threshold: int, scripts: seq<Script>, retries: nat, top: nat,
                                      start: nat)
    requires Level(c, top, start) && threshold >= 1 && AllSound(scripts, top)
    requires Bounded(c.wire.hits, Max(threshold - 1, start), top)
    ensures var r := Gets(c, threshold, scripts, retries);
            Level(r, top, start) && Bounded(r.wire.hits, Max(threshold - 1, start), top)
    decreases |scripts|
  {
    if scripts != [] {
      CallKeeps(c, threshold, scripts[0], retries, 0, 0, 0, top, start);
      var r := Get(c, threshold, scripts[0], retries);
      if r.result == Body {
        assert forall i :: 0 <= i < |scripts[1..]| ==> scripts[1..][i] == scripts[i + 1];
        CountBound(r.client, threshold, scripts[1..], retries, top, start);
      }
    }
  }

  // --- the numeric bound -------------------------------------------------------------------------------

  predicate Few(hits: seq<Hit>, retries: nat) {
    forall i :: 0 <= i < |hits| ==> hits[i].unseen <= retries
  }

  lemma AttemptSees(c: Client, threshold: int, t: Try, retries: nat, network: nat)
    requires t.header && c.wire.unseen <= network < retries && Few(c.wire.hits, retries)
    ensures var d := Attempt(c, threshold, t);
            && Few(d.wire.hits, retries) && d.wire.unseen <= network + 1
            && (t.outcome.Success? || t.outcome.RateLimited? ==> d.wire.unseen == 0)
  {
  }

  /** Within a call, only attempts on the network budget and a final 404 go unseen. */
  lemma {:induction false} CallSees(c: Client, threshold: int, script: Script, retries: nat, n: nat, network: nat,
                                    throttled: nat)
    requires Visible(script) && c.wire.unseen <= network && Few(c.wire.hits, retries)
    ensures var r := GetFrom(c, threshold, script, retries, n, network, throttled);
            Few(r.client.wire.hits, retries) && (r.result == Body ==> r.client.wire.unseen == 0)
    decreases retries - network, RATE_LIMIT_RETRIES - throttled
  {
    if network < retries && throttled < RATE_LIMIT_RETRIES {
      var d := Attempt(c, threshold, script(n));
      AttemptSees(c, threshold, script(n), retries, network);
      hide Attempt, Few;
      match script(n).outcome
      case Success =>
      case NotFound =>
      case RateLimited(after) =>
        CallSees(BackedOff(d, after), threshold, script, retries, n + 1, network, throttled + 1);
      case ServerError => CallSees(d, threshold, script, retries, n + 1, network + 1, throttled);
      case CutOff => CallSees(d, threshold, script, retries, n + 1, network + 1, throttled);
      case Lost(_) => CallSees(d, threshold, script, retries, n + 1, network + 1, throttled);
    }
  }

  lemma {:induction false} RunSees(c: Client, threshold: int, scripts: seq<Script>, retries: nat)
    requires AllVisible(scripts) && c.wire.unseen == 0 && Few(c.wire.hits, retries)
    ensures Few(Gets(c, threshold, scripts, retries).wire.hits, retries)
    decreases |scripts|
  {
    if scripts != [] {
      CallSees(c, threshold, scripts[0], retries, 0, 0, 0);
      var r := Get(c, threshold, scripts[0], retries);
      if r.result == Body {
        assert forall i :: 0 <= i < |scripts[1..]| ==> scripts[1..][i] == scripts[i + 1];
        RunSees(r.client, threshold, scripts[1..], retries);
      }
    }
  }

  /** No request left the server's count above the limit. */
  predicate Within(hits: seq<Hit>, limit: int) {
    forall i :: 0 <= i < |hits| ==> hits[i].count <= limit
  }

  lemma Product(a: nat, b: nat, top: nat)
    requires a <= b
    ensures a * top <= b * top
  {
  }

  lemma FewWithin(hits: seq<Hit>, ceiling: int, retries: nat, top: nat)
    requires Few(hits, retries) && Bounded(hits, ceiling, top)
    ensures Within(hits, ceiling + retries * top)
  {
    forall i | 0 <= i < |hits| ensures hits[i].count <= ceiling + retries * top {
      Product(hits[i].unseen, retries, top);
    }
  }

  /** A pacer that starts at `used` when the server has counted `count` in the running minute. */
  function Starting(now: real, used: int, count: nat): Client {
    Client(Wire(now, Minute(now), count, 0, []), used)
  }

  /** A sole client whose pacer starts level with the server, every response carrying the header and
      requests weighing at most `top`: the server's count in any clock minute never exceeds
      threshold - 1 + retries * top, losses, errors and 404s included. */
  lemma {:induction false} WeightBound(now: real, used: int, count: nat, threshold: int, scripts: seq<Script>,
                                       retries: nat, top: nat)
    requires count <= used && threshold >= 1 && AllSound(scripts, top) && AllVisible(scripts)
    ensures Within(Gets(Starting(now, used, count), threshold, scripts, retries).wire.hits,
                   threshold - 1 + retries * top)
  {
    var c := Starting(now, used, count);
    CountBound(c, threshold, scripts, retries, top, 0);
    RunSees(c, threshold, scripts, retries);
    FewWithin(Gets(c, threshold, scripts, retries).wire.hits, threshold - 1, retries, top);
  }

  // --- the bound is attained ------------------------------------------------------------------------------

  function LostTry(weight: nat): Try {
    Try(0.0, 0.0, 0.0, weight, Lost(true), true)
  }

  /** Every attempt is counted by the server and its response lost. */
  function AllLost(top: nat): Script {
    (n: nat) => LostTry(top)
  }

  lemma LostAttempt(c: Client, threshold: int, top: nat)
    requires c.used < threshold && c.wire.minute == Minute(c.wire.now)
    ensures var d := Attempt(c, threshold, LostTry(top));
            && d.used == c.used && d.wire.now == c.wire.now && d.wire.minute == c.wire.minute
            && d.wire.count == c.wire.count + top
            && d.wire.hits == c.wire.hits + [Hit(c.wire.minute, c.wire.count + top, c.wire.unseen + 1)]
  {
  }

  lemma {:induction false} LossesAddUp(c: Client, threshold: int, top: nat, retries: nat, n: nat, network: nat)
    requires c.used < threshold && c.wire.minute == Minute(c.wire.now) && network < retries
    ensures var hits := GetFrom(c, threshold, AllLost(top), retries, n, network, 0).client.wire.hits;
            hits != [] && hits[|hits| - 1].count == c.wire.count + (retries - network) * top
    decreases retries - network
  {
    hide Attempt;
    var d := Attempt(c, threshold, LostTry(top));
    LostAttempt(c, threshold, top);
    assert AllLost(top)(n) == LostTry(top);
    assert GetFrom(c, threshold, AllLost(top), retries, n, network, 0)
        == GetFrom(d, threshold, AllLost(top), retries, n + 1, network + 1, 0);
    if network + 1 < retries {
      LossesAddUp(d, threshold, top, retries, n + 1, network + 1);
      assert (retries - network) * top == top + (retries - network - 1) * top;
    }
  }

  lemma OneCall(c: Client, threshold: int, script: Script, retries: nat)
    ensures Gets(c, threshold, [script], retries) == Get(c, threshold, script, retries).client
  {
    assert [script][1..] == [];
  }

  lemma LostIsFair(top: nat)
    ensures AllSound([AllLost(top)], top) && AllVisible([AllLost(top)])
  {
  }

  /** From a count below the threshold, one call whose responses are all lost ends exactly
      retries * top higher. */
  lemma LostCall(now: real, used: int, count: nat, threshold: int, retries: nat, top: nat)
    requires used < threshold && retries >= 1
    ensures var hits := Gets(Starting(now, used, count), threshold, [AllLost(top)], retries).wire.hits;
            hits != [] && hits[|hits| - 1].count == count + retries * top
  {
    OneCall(Starting(now, used, count), threshold, AllLost(top), retries);
    LossesAddUp(Starting(now, used, count), threshold, top, retries, 0, 0);
  }

  /** No smaller bound holds. */
  lemma BoundAttained(now: real, threshold: int, retries: nat, top: nat)
    requires threshold >= 1 && retries >= 1
    ensures AllSound([AllLost(top)], top) && AllVisible([AllLost(top)])
    ensures var hits := Gets(Starting(now, threshold - 1, threshold - 1), threshold, [AllLost(top)], retries).wire.hits;
            hits != [] && hits[|hits| - 1].count == threshold - 1 + retries * top
  {
    LostIsFair(top);
    LostCall(now, threshold - 1, threshold - 1, threshold, retries, top);
  }

  // --- a fresh pacer in the middle of a minute ----------------------------------------------------------------

  /** Whatever it starts with, a fresh pacer keeps the count within what the minute held, or
      threshold - 1, plus retries * top. */
  lemma {:induction false} FreshPacerBound(now: real, count: nat, threshold: int, scripts: seq<Script>, retries: nat,
                                           top: nat)
    requires threshold >= 1 && AllSound(scripts, top) && AllVisible(scripts)
    ensures Within(Gets(Starting(now, 0, count), threshold, scripts, retries).wire.hits,
                   Max(threshold - 1, count) + retries * top)
  {
    var c := Starting(now, 0, count);
    CountBound(c, threshold, scripts, retries, top, count);
    RunSees(c, threshold, scripts, retries);
    FewWithin(Gets(c, threshold, scripts, retries).wire.hits, Max(threshold - 1, count), retries, top);
  }

  /** Each bridge makes its own pacer, which starts at zero whatever the server has already counted in
      the running minute. The bound holds for every such run if and only if that count was below the
      threshold. */
  lemma {:induction false} FreshPacerBoundIff(now: real, count: nat, threshold: int, retries: nat, top: nat)
    requires threshold >= 1 && retries >= 1
    ensures (forall scripts: seq<Script> :: AllSound(scripts, top) && AllVisible(scripts) ==>
               Within(Gets(Starting(now, 0, count), threshold, scripts, retries).wire.hits,
                      threshold - 1 + retries * top))
            <==> count <= threshold - 1
  {
    var c := Starting(now, 0, count);
    if count <= threshold - 1 {
      forall scripts: seq<Script> | AllSound(scripts, top) && AllVisible(scripts)
        ensures Within(Gets(c, threshold, scripts, retries).wire.hits, threshold - 1 + retries * top)
      {
        FreshPacerBound(now, count, threshold, scripts, retries, top);
      }
    } else {
      LostIsFair(top);
      LostCall(now, 0, count, threshold, retries, top);
      var hits := Gets(c, threshold, [AllLost(top)], retries).wire.hits;
      assert !Within(hits, threshold - 1 + retries * top);
    }
  }

  // --- what a missing header costs ----------------------------------------------------------------------------

  function BlindTry(): Try {
    Try(0.0, 0.0, 0.0, 1, Success, false)
  }

  /** A page served at once, without the weight header. */
  function Blind(): Script {
    (n: nat) => BlindTry()
  }

  function Repeated(n: nat): (r: seq<Script>)
    ensures |r| == n && forall i :: 0 <= i < n ==> r[i] == Blind()
  {
    seq(n, _ => Blind())
  }

  lemma BlindCall(c: Client, threshold: int)
    requires c.used < threshold && c.wire.minute == Minute(c.wire.now)
    ensures var r := Get(c, threshold, Blind(), HTTP_RETRIES);
            && r.result == Body && r.client.used == c.used
            && r.client.wire.now == c.wire.now && r.client.wire.minute == c.wire.minute
            && r.client.wire.count == c.wire.count + 1
  {
    assert Blind()(0) == BlindTry();
  }

  lemma {:induction false} BlindCalls(c: Client, threshold: int, n: nat)
    requires c.used < threshold && c.wire.minute == Minute(c.wire.now)
    ensures var r := Gets(c, threshold, Repeated(n), HTTP_RETRIES);
            && r.used == c.used && r.wire.count == c.wire.count + n
            && r.wire.now == c.wire.now && r.wire.minute == c.wire.minute
    decreases n
  {
    if n > 0 {
      hide Get;
      BlindCall(c, threshold);
      assert Repeated(n)[0] == Blind() && Repeated(n)[1..] == Repeated(n - 1);
      BlindCalls(Get(c, threshold, Blind(), HTTP_RETRIES).client, threshold, n - 1);
    }
  }

  /** The headers are needed: with none, a bridge whose pages all arrive takes the count past any
      bound within one minute, its estimate never leaving zero. */
  lemma NoBoundWithoutHeaders(now: real, threshold: int, bound: nat)
    requires threshold >= 1
    ensures var r := Gets(Starting(now, 0, 0), threshold, Repeated(bound + 1), HTTP_RETRIES);
            r.used == 0 && r.wire.count > bound && Minute(r.wire.now) == r.wire.minute == Minute(now)
  {
    BlindCalls(Starting(now, 0, 0), threshold, bound + 1);
  }

  // --- the objects ----------------------------------------------------------------------------------------

  class WeightPacer {
    const limit: int
    const threshold: int
    var used: int

    constructor (limit: int, safety: real)
      ensures this.limit == limit && threshold == Threshold(limit, safety) && used == 0
    {
      this.limit := limit;
      var t := ((limit as real) * safety).Floor;
      threshold := if t < 1 then 1 else t;
      used := 0;
    }

    /** Record the weight the server reported, if it could be read. */
    method Observe(reported: int, readable: bool)
      modifies this
      ensures used == if readable then reported else old(used)
    {
      if readable {
        used := reported;
      }
    }

    /** Sleep past the next clock minute when at or over the threshold; returns the time afterwards. */
    method Throttle(now: real, oversleep: real) returns (after: real)
      requires oversleep >= 0.0
      modifies this
      ensures (after, used) == AfterThrottle(now, old(used), threshold, oversleep)
      ensures old(used) >= threshold ==> used == 0 && Minute(after) > Minute(now)
      ensures old(used) < threshold ==> after == now
    {
      after := now;
      if used < threshold {
        return;
      }
      SleepLandsLater(now, oversleep);
      after := now + Wait(now) + oversleep;
      used := 0;
    }
  }

  /** `_get` with a pacer. */
  method GetWith(pacer: WeightPacer, start: Wire, script: Script, retries: nat)
    returns (wire: Wire, result: Result, attempts: nat)
    requires forall n: nat {:trigger script(n)} :: Timed(script(n))
    modifies pacer
    ensures Call(Client(wire, pacer.used), result, attempts)
            == Get(Client(start, old(pacer.used)), pacer.threshold, script, retries)
  {
    hide Serve, Wait, Minute;
    wire, attempts := start, 0;
    var network: nat, throttled: nat := 0, 0;
    ghost var call := Get(Client(start, pacer.used), pacer.threshold, script, retries);
    while network < retries && throttled < RATE_LIMIT_RETRIES
      invariant GetFrom(Client(wire, pacer.used), pacer.threshold, script, retries, attempts, network, throttled)
                == call
      decreases retries - network, RATE_LIMIT_RETRIES - throttled
    {
      var t := script(attempts);
      attempts := attempts + 1;
      var now := pacer.Throttle(wire.now, t.oversleep);
      wire := Serve(wire.(now := now), t);
      match t.outcome {
        case Success =>
          pacer.Observe(wire.count, t.header);
          return wire, Body, attempts;
        case NotFound =>
          return wire, Absent, attempts;
        case RateLimited(retryAfter) =>
          pacer.Observe(wire.count, t.header);
          wire := wire.(now := wire.now + Backoff(retryAfter) as real);
          throttled := throttled + 1;
        case ServerError =>
          pacer.Observe(wire.count, t.header);
          network := network + 1;
        case CutOff =>
          pacer.Observe(wire.count, t.header);
          network := network + 1;
        case Lost(_) =>
          network := network + 1;
      }
    }
    result := Raised;
  }
}
