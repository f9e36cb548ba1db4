/**
 * GraphClient.request: the bounded retry loop, and how many sends one imported item can cost.
 *
 * What the network answers to the i-th try and what the random jitter draws are functions of i.
 */
module GraphClient {
  import opened Wrappers

  /** How a response that is no success is classified, by its status and error code. */
  datatype Kind = Auth | Permission | Quota | Plain

  /** The i-th try: no token could be had, nothing came back, or a response did. */
  datatype Outcome = NoToken | TransportError | Response(status: int, retryAfter: Option<real>, kind: Kind)

  /** `jitter` scales the random draws: uniform(0, b) is jitter * b. */
  datatype Script = Script(outcome: nat -> Outcome, jitter: nat -> real)

  datatype Config = Config(maxRetries: int, backoffMax: real, expected: set<int>)

  datatype Error = TokenFailed | ThrottledError(retryAfter: Option<real>) | GraphError(kind: Kind)

  datatype Reply = Ok(status: int) | Err(error: Error)

  /** The reply, with what the call did: one governor record per send, and the sleeps. */
  datatype Trace = Trace(reply: Reply, records: seq<bool>, sleeps: seq<real>)

  predicate IsThrottle(o: Outcome) {
    o.TransportError? || (o.Response? && (o.status == 429 || o.status == 503))
  }

  function RetryAfterOf(o: Outcome): Option<real> {
    if o.Response? then o.retryAfter else None
  }

  function Pow2(n: nat): real {
    if n == 0 then 1.0 else 2.0 * Pow2(n - 1)
  }

  function Least(a: real, b: real): real { if a < b then a else b }

  /** random.uniform(0, b) */
  function Uniform(jitter: real, b: real): real { jitter * b }

  /** The sleep before the next try; it never exceeds the maximum, not even for a longer Retry-After. */
  function Backoff(c: Config, attempt: nat, retryAfter: Option<real>, jitter: real): real {
    var delay :=
      if retryAfter.Some? then retryAfter.value + Uniform(jitter, 1.0)
      else Uniform(jitter, Least(c.backoffMax, Pow2(attempt)));
    Least(delay, c.backoffMax)
  }

  /** From try number `attempt` on, with what happened so far. */
  function From(c: Config, s: Script, attempt: nat, records: seq<bool>, sleeps: seq<real>): Trace
    decreases c.maxRetries - attempt
  {
    var o := s.outcome(attempt);
    if o.NoToken? then Trace(Err(TokenFailed), records, sleeps)
    else if IsThrottle(o) then
      if attempt >= c.maxRetries then Trace(Err(ThrottledError(RetryAfterOf(o))), records + [true], sleeps)
      else From(c, s, attempt + 1, records + [true], sleeps + [Backoff(c, attempt, RetryAfterOf(o), s.jitter(attempt))])
    else Trace(if o.status in c.expected then Ok(o.status) else Err(GraphError(o.kind)), records + [false], sleeps)
  }

  function Requested(c: Config, s: Script): Trace {
    From(c, s, 0, [], [])
  }

  method Request(c: Config, s: Script) returns (t: Trace)
    ensures t == Requested(c, s)
  {
    var attempt: nat, records, sleeps := 0, [], [];
    while true
      invariant From(c, s, attempt, records, sleeps) == Requested(c, s)
      decreases c.maxRetries - attempt
    {
      var o := s.outcome(attempt);
      if o.NoToken? { return Trace(Err(TokenFailed), records, sleeps); }
      if o.TransportError? || o.status == 429 || o.status == 503 {
        records := records + [true];
        var retryAfter := RetryAfterOf(o);
        if attempt >= c.maxRetries {
          return Trace(Err(ThrottledError(retryAfter)), records, sleeps);
        }
        sleeps := sleeps + [Backoff(c, attempt, retryAfter, s.jitter(attempt))];
        attempt := attempt + 1;
      } else {
        records := records + [false];
        return Trace(if o.status in c.expected then Ok(o.status) else Err(GraphError(o.kind)), records, sleeps);
      }
    }
  }

  // ----- what the loop guarantees -----

  /** The number of tries that end without being retried: the first one that is not throttled, or the last allowed. */
  function Tries(c: Config, s: Script, attempt: nat): (n: nat)
    ensures n >= attempt
    ensures forall i | attempt <= i < n :: IsThrottle(s.outcome(i))
    ensures n < c.maxRetries ==> !IsThrottle(s.outcome(n))
    ensures n == attempt || n <= c.maxRetries
    decreases c.maxRetries - attempt
  {
    if IsThrottle(s.outcome(attempt)) && attempt < c.maxRetries then Tries(c, s, attempt + 1) else attempt
  }

  /** The verdict depends only on try number n, the sleeps on the tries before it. */
  lemma {:induction false} FromIs(c: Config, s: Script, attempt: nat, records: seq<bool>, sleeps: seq<real>)
    requires |records| == |sleeps| == attempt && attempt <= (if c.maxRetries < 0 then 0 else c.maxRetries)
    ensures
      var t := From(c, s, attempt, records, sleeps);
      var n := Tries(c, s, attempt);
      var o := s.outcome(n);
      && t.reply == (if o.NoToken? then Err(TokenFailed)
                     else if IsThrottle(o) then Err(ThrottledError(RetryAfterOf(o)))
                     else if o.status in c.expected then Ok(o.status) else Err(GraphError(o.kind)))
      && |t.records| == (if o.NoToken? then n else n + 1)
      && |t.sleeps| == n
      && (forall i | 0 <= i < attempt :: t.records[i] == records[i] && t.sleeps[i] == sleeps[i])
      && (forall i | attempt <= i < n ::
            t.records[i] && t.sleeps[i] == Backoff(c, i, RetryAfterOf(s.outcome(i)), s.jitter(i)))
      && (n < |t.records| ==> t.records[n] == IsThrottle(o))
    decreases c.maxRetries - attempt
  {
    var o := s.outcome(attempt);
    if IsThrottle(o) && attempt < c.maxRetries {
      FromIs(c, s, attempt + 1, records + [true], sleeps + [Backoff(c, attempt, RetryAfterOf(o), s.jitter(attempt))]);
    }
  }

  /** What a try allows `request` to return. */
  predicate Explains(c: Config, o: Outcome, r: Reply) {
    && (r.Ok? ==> o.Response? && !IsThrottle(o) && o.status == r.status && r.status in c.expected)
    && (r.Err? && r.error.GraphError? ==> o.Response? && !IsThrottle(o) && o.status !in c.expected)
    && (r.Err? && r.error.ThrottledError? ==> IsThrottle(o))
    && (r.Err? && r.error.TokenFailed? ==> o.NoToken?)
  }

  /**
   * At most maxRetries + 1 sends, each recorded once with the governor, and as throttled exactly if it
   * was; what is returned is explained by the last try; a throttled try is the last one only when no
   * retry is left.
   */
  lemma RequestBounds(c: Config, s: Script)
    ensures
      var t := Requested(c, s);
      var most := if c.maxRetries < 0 then 0 else c.maxRetries;
      && |t.sleeps| <= most
      && |t.records| == |t.sleeps| + (if s.outcome(|t.sleeps|).NoToken? then 0 else 1)
      && (forall i | 0 <= i < |t.records| ::
            var o := s.outcome(i);
            t.records[i] <==> o.TransportError? || (o.Response? && o.status in {429, 503}))
      && (forall i: nat | i < |t.sleeps| :: IsThrottle(s.outcome(i)))
      && Explains(c, s.outcome(|t.sleeps|), t.reply)
      && (t.reply.Err? && t.reply.error.ThrottledError? ==> |t.sleeps| == most)
  {
    FromIs(c, s, 0, [], []);
  }

  lemma SleepIs(c: Config, s: Script, i: nat)
    requires i < |Requested(c, s).sleeps|
    ensures Requested(c, s).sleeps[i] == Backoff(c, i, RetryAfterOf(s.outcome(i)), s.jitter(i))
  {
    FromIs(c, s, 0, [], []);
  }

  /** Every sleep is at least what Retry-After asks for, capped, and never more than the maximum. */
  lemma SleepBounds(c: Config, s: Script, i: nat)
    requires i < |Requested(c, s).sleeps| && 0.0 <= s.jitter(i) <= 1.0 && c.backoffMax >= 0.0
    ensures
      var sleep := Requested(c, s).sleeps[i];
      var ra := RetryAfterOf(s.outcome(i));
      && sleep <= c.backoffMax
      && (ra.Some? ==> Least(ra.value, c.backoffMax) <= sleep <= Least(ra.value + 1.0, c.backoffMax))
      && (ra.None? ==> 0.0 <= sleep <= Least(c.backoffMax, Pow2(i)))
  {
    SleepIs(c, s, i);
    BackoffBounds(c, i, RetryAfterOf(s.outcome(i)), s.jitter(i));
  }

  lemma BackoffBounds(c: Config, attempt: nat, ra: Option<real>, jitter: real)
    requires 0.0 <= jitter <= 1.0 && c.backoffMax >= 0.0
    ensures
      var sleep := Backoff(c, attempt, ra, jitter);
      && sleep <= c.backoffMax
      && (ra.Some? ==> Least(ra.value, c.backoffMax) <= sleep <= Least(ra.value + 1.0, c.backoffMax))
      && (ra.None? ==> 0.0 <= sleep <= Least(c.backoffMax, Pow2(attempt)))
  {
    Pow2Positive(attempt);
    Fraction(jitter, if ra.Some? then 1.0 else Least(c.backoffMax, Pow2(attempt)));
  }

  lemma {:induction false} Pow2Positive(n: nat)
    ensures Pow2(n) >= 1.0
  {
    if n > 0 {
      Pow2Positive(n - 1);
    }
  }

  lemma Fraction(u: real, b: real)
    requires 0.0 <= u <= 1.0 && b >= 0.0
    ensures 0.0 <= Uniform(u, b) <= b
  {
    Product(u, b);
    Product(1.0 - u, b);
    assert b - u * b == (1.0 - u) * b;
  }

  lemma Product(x: real, y: real)
    requires x >= 0.0 && y >= 0.0
    ensures x * y >= 0.0
  {
  }

  /** The longest sleep after a try without Retry-After. */
  function Ceiling(c: Config, attempt: nat): real {
    Backoff(c, attempt, None, 1.0)
  }

  /** It is a second at first, doubles from try to try, and stops at the maximum. */
  lemma CeilingDoubles(c: Config, attempt: nat)
    requires c.backoffMax >= 0.0
    ensures Ceiling(c, 0) == Least(c.backoffMax, 1.0)
    ensures Ceiling(c, attempt + 1) == Least(c.backoffMax, 2.0 * Ceiling(c, attempt))
  {
    OnceUniform(Least(c.backoffMax, 1.0));
    OnceUniform(Least(c.backoffMax, Pow2(attempt)));
    OnceUniform(Least(c.backoffMax, Pow2(attempt + 1)));
  }

  lemma OnceUniform(b: real)
    ensures Uniform(1.0, b) == b
  {
  }

  /** The draw spreads the sleeps: over the whole ceiling without Retry-After, over one second behind it with one. */
  lemma SleepSpreads(c: Config, s: Script, i: nat)
    requires i < |Requested(c, s).sleeps| && 0.0 <= s.jitter(i) <= 1.0 && c.backoffMax >= 0.0
    ensures
      var sleep := Requested(c, s).sleeps[i];
      match RetryAfterOf(s.outcome(i))
      case None => sleep == s.jitter(i) * Ceiling(c, i)
      case Some(ra) => sleep == Least(ra + s.jitter(i), c.backoffMax)
  {
    SleepIs(c, s, i);
    BackoffBounds(c, i, None, s.jitter(i));
    OnceUniform(Least(c.backoffMax, Pow2(i)));
    Pow2Positive(i);
    Fraction(s.jitter(i), Least(c.backoffMax, Pow2(i)));
    assert Uniform(s.jitter(i), 1.0) == s.jitter(i);
  }

  function Sum(xs: seq<real>): real {
    if xs == [] then 0.0 else Sum(xs[..|xs| - 1]) + xs[|xs| - 1]
  }

  lemma {:induction false} SumPow2(xs: seq<real>)
    requires forall i | 0 <= i < |xs| :: xs[i] <= Pow2(i)
    ensures Sum(xs) <= Pow2(|xs|) - 1.0
  {
    if xs != [] {
      SumPow2(xs[..|xs| - 1]);
    }
  }

  /** Without Retry-After, k sleeps take at most 2^k - 1 seconds together. */
  lemma TotalSleep(c: Config, s: Script)
    requires c.backoffMax >= 0.0
    requires forall i: nat :: 0.0 <= s.jitter(i) <= 1.0 && RetryAfterOf(s.outcome(i)).None?
    ensures Sum(Requested(c, s).sleeps) <= Pow2(|Requested(c, s).sleeps|) - 1.0
  {
    var sleeps := Requested(c, s).sleeps;
    forall i | 0 <= i < |sleeps| ensures sleeps[i] <= Pow2(i) {
      SleepBounds(c, s, i);
    }
    SumPow2(sleeps);
  }

  /** A Retry-After beyond the maximum is not waited out. */
  lemma RetryAfterCapped()
    ensures
      var c := Config(1, 300.0, {200});
      var s := Script(i => if i == 0 then Response(429, Some(3600.0), Plain) else Response(200, None, Plain), i => 0.0);
      Requested(c, s) == Trace(Ok(200), [true, false], [300.0])
  {
    var c := Config(1, 300.0, {200});
    var s := Script(i => if i == 0 then Response(429, Some(3600.0), Plain) else Response(200, None, Plain), i => 0.0);
    assert From(c, s, 1, [true], [300.0]) == Trace(Ok(200), [true, false], [300.0]);
  }

  // ----- one imported item -----

  /** One `import_item`: a session request if none is live, then the upload. */
  datatype ImportTry = ImportTry(session: Option<Script>, post: Script)

  /** What went wrong with an import, as the item loop tells it apart. */
  datatype Failure = JobFatal | AuthFailed | Retryable | Foreign

  function Classified(e: Error): Failure {
    match e
    case TokenFailed => Foreign  // raised by the control-plane client, not a Graph error
    case ThrottledError(_) => Retryable
    case GraphError(kind) =>
      if kind == Auth then AuthFailed else if kind == Plain then Retryable else JobFatal
  }

  /** A failure that ends the item loop at once. */
  predicate Final(e: Error) {
    Classified(e).JobFatal? || Classified(e).Foreign?
  }

  datatype ImportResult = Imported | Skipped | Raised(failure: Failure)

  function ItemReply(c: Config, t: ImportTry): Reply {
    if t.session.Some? && Requested(c, t.session.value).reply.Err? then Requested(c, t.session.value).reply
    else Requested(c, t.post).reply
  }

  method ImportItem(c: Config, t: ImportTry) returns (r: Reply, sends: nat)
    ensures r == ItemReply(c, t)
    ensures
      if t.session.Some? && Requested(c, t.session.value).reply.Err?
      then r == Requested(c, t.session.value).reply && sends == |Requested(c, t.session.value).records|
      else
        && r == Requested(c, t.post).reply
        && sends == (if t.session.Some? then |Requested(c, t.session.value).records| else 0)
                    + |Requested(c, t.post).records|
    ensures sends <= 2 * ((if c.maxRetries < 0 then 0 else c.maxRetries) + 1)
  {
    sends := 0;
    if t.session.Some? {
      var session := Request(c, t.session.value);
      RequestBounds(c, t.session.value);
      sends := |session.records|;
      if session.reply.Err? { return session.reply, sends; }
    }
    var posted := Request(c, t.post);
    RequestBounds(c, t.post);
    return posted.reply, sends + |posted.records|;
  }

  /** How the tries settle an item's fate: all but the last failed in a way worth retrying, and the last decides. */
  predicate Settled(c: Config, tries: nat -> ImportTry, itemMaxRetries: int, attempts: nat, r: ImportResult) {
    && attempts <= (if itemMaxRetries < 0 then 0 else itemMaxRetries + 1)
    && (attempts == 0 ==> itemMaxRetries < 0 && r == Skipped)
    && (forall k: nat | k + 1 < attempts :: ItemReply(c, tries(k)).Err? && !Final(ItemReply(c, tries(k)).error))
    && (attempts > 0 ==>
          var last := ItemReply(c, tries(attempts - 1));
          if last.Ok? then r == Imported
          else if Final(last.error) then r == Raised(Classified(last.error))
          else
            && attempts == itemMaxRetries + 1
            && r == if Classified(last.error).AuthFailed? then Raised(AuthFailed) else Skipped)
  }

  /**
   * Importing one item makes at most 2 (itemMaxRetries + 1) (maxRetries + 1) sends, and its fate is
   * settled by the last of its tries; a last one worth retrying means that the budget is spent.
   */
  method ImportWithRetries(c: Config, tries: nat -> ImportTry, itemMaxRetries: int)
    returns (r: ImportResult, attempts: nat, sends: nat)
    ensures sends <= attempts * (2 * ((if c.maxRetries < 0 then 0 else c.maxRetries) + 1))
    ensures Settled(c, tries, itemMaxRetries, attempts, r)
  {
    ghost var most := (if c.maxRetries < 0 then 0 else c.maxRetries) + 1;
    var auth := false;
    attempts, sends := 0, 0;
    while attempts <= itemMaxRetries
      invariant attempts == 0 || attempts <= itemMaxRetries + 1
      invariant sends <= attempts * (2 * most)
      invariant forall k: nat | k < attempts :: ItemReply(c, tries(k)).Err? && !Final(ItemReply(c, tries(k)).error)
      invariant auth == (attempts > 0 && Classified(ItemReply(c, tries(attempts - 1)).error).AuthFailed?)
    {
      var reply, n := ImportItem(c, tries(attempts));
      sends := sends + n;
      attempts := attempts + 1;
      Distribute(attempts, 2 * most);
      if reply.Ok? { return Imported, attempts, sends; }
      if Final(reply.error) { return Raised(Classified(reply.error)), attempts, sends; }
      auth := Classified(reply.error).AuthFailed?;
    }
    r := if auth then Raised(AuthFailed) else Skipped;
  }

  lemma Distribute(a: nat, each: nat)
    requires a > 0
    ensures a * each == (a - 1) * each + each
  {
  }
}
