/** The fixed-window limiter of authentication attempts, with its lazy eviction of old counters. */
module RateLimiter {
  import opened Prelude
  import Strings

  datatype Rule = Rule(maxAttempts: int, window: Int64)

  /** The zero time (0) marks a counter that was never started. */
  datatype Counter = Counter(startedAt: Time, count: int)

  datatype Decision = Decision(allowed: bool, retryAfter: Int64)

  datatype Call = Call(path: string, clientKey: string, now: Time)

  type Rules = map<string, Rule>
  type Counters = map<string, Counter>

  const SECOND: Int64 := 1_000_000_000
  const EVICTION_THRESHOLD: nat := 2048

  /** `time.Time.Sub`: the elapsed time, saturated to the range of a duration. */
  function Since(now: Time, start: Time): Int64 {
    var d := now - start;
    if d > MAX_INT64 then MAX_INT64 else if d < MIN_INT64 then MIN_INT64 else d
  }

  function Bucket(path: string, clientKey: string): string {
    path + "|" + clientKey
  }

  function PathOf(bucket: string): string {
    if '|' in bucket then bucket[..Strings.IndexOf(bucket, '|')] else bucket
  }

  predicate Limited(rules: Rules, path: string) {
    path in rules && rules[path].maxAttempts > 0 && rules[path].window > 0
  }

  // ---- What a call does ---------------------------------------------------

  predicate Running(counters: Counters, bucket: string, window: Int64, now: Time) {
    bucket in counters && counters[bucket].startedAt != 0 && now - counters[bucket].startedAt < window
  }

  /** The counter a call is judged by: the bucket's own while its window runs, a new one afterwards. */
  function Judged(counters: Counters, bucket: string, window: Int64, now: Time): Counter {
    if Running(counters, bucket, window, now) then counters[bucket] else Counter(now, 0)
  }

  function Judge(rule: Rule, c: Counter, now: Time): Decision {
    if c.count < rule.maxAttempts then Decision(true, 0)
    else Decision(false, Longer(Wrap64(rule.window - Since(now, c.startedAt)), SECOND))
  }

  function Longer(a: Int64, b: Int64): Int64 {
    if a < b then b else a
  }

  /** The limiter that never forgets a counter. */
  function Plain(rules: Rules, counters: Counters, call: Call): (Counters, Decision) {
    if !Limited(rules, call.path) then (counters, Decision(true, 0)) else
      var rule, bucket := rules[call.path], Bucket(call.path, call.clientKey);
      var c := Judged(counters, bucket, rule.window, call.now);
      var d := Judge(rule, c, call.now);
      (counters[bucket := if d.allowed then c.(count := c.count + 1) else c], d)
  }

  predicate Stale(rules: Rules, bucket: string, c: Counter, now: Time) {
    var path := PathOf(bucket);
    path !in rules || rules[path].window <= 0 || Since(now, c.startedAt) >= Wrap64(2 * rules[path].window)
  }

  function Fresh(rules: Rules, counters: Counters, now: Time): Counters {
    map b | b in counters && !Stale(rules, b, counters[b], now) :: counters[b]
  }

  /** The limiter as it runs: an admitting call that leaves too many counters drops the stale ones. */
  function Evicting(rules: Rules, counters: Counters, call: Call): (Counters, Decision) {
    var (next, d) := Plain(rules, counters, call);
    if Limited(rules, call.path) && d.allowed && |next| > EVICTION_THRESHOLD
    then (Fresh(rules, next, call.now), d)
    else (next, d)
  }

  lemma SinceReaches(now: Time, start: Time, w: Int64)
    requires w > MIN_INT64
    ensures Since(now, start) >= w <==> now - start >= w
  {
  }

  class AuthRateLimiter {
    const rules: Rules
    var counters: Counters

    constructor (rules: Rules)
      ensures this.rules == rules && counters == map[]
    {
      this.rules := rules;
      counters := map[];
    }

    /** Judges one attempt; `now` is the clock read that precedes the lock. */
    method Allow(path: string, clientKey: string, now: Time) returns (allowed: bool, retryAfter: Int64)
      modifies this
      ensures (counters, Decision(allowed, retryAfter)) == Evicting(rules, old(counters), Call(path, clientKey, now))
    {
      if path !in rules || rules[path].maxAttempts <= 0 || rules[path].window <= 0 {
        return true, 0;
      }
      var rule := rules[path];
      var bucket := path + "|" + clientKey;

      var counter := if bucket in counters then counters[bucket] else Counter(0, 0);
      SinceReaches(now, counter.startedAt, rule.window);
      if counter.startedAt == 0 || Since(now, counter.startedAt) >= rule.window {
        counter := Counter(now, 0);
      }
      assert counter == Judged(old(counters), bucket, rule.window, now);

      if counter.count >= rule.maxAttempts {
        retryAfter := Wrap64(rule.window - Since(now, counter.startedAt));
        if retryAfter < SECOND {
          retryAfter := SECOND;
        }
        counters := counters[bucket := counter];
        return false, retryAfter;
      }

      counter := counter.(count := counter.count + 1);
      counters := counters[bucket := counter];
      if |counters| > EVICTION_THRESHOLD {
        CleanupExpired(now);
      }
      return true, 0;
    }

    /** Walks the counters in some order and deletes the stale ones. */
    method CleanupExpired(now: Time)
      modifies this
      ensures counters == Fresh(rules, old(counters), now)
    {
      var unvisited := counters.Keys;
      while unvisited != {}
        invariant unvisited <= counters.Keys <= old(counters).Keys
        invariant forall b | b in counters :: counters[b] == old(counters)[b]
        invariant forall b | b in old(counters) && b !in unvisited ::
                    b in counters <==> !Stale(rules, b, old(counters)[b], now)
      {
        var bucket :| bucket in unvisited;
        unvisited := unvisited - {bucket};
        var path := bucket;
        if '|' in bucket {
          path := bucket[..Strings.IndexOf(bucket, '|')];
        }
        if path !in rules || rules[path].window <= 0 {
          counters := counters - {bucket};
        } else if Since(now, counters[bucket].startedAt) >= Wrap64(2 * rules[path].window) {
          counters := counters - {bucket};
        }
      }
    }
  }

  // ---- Runs ---------------------------------------------------------------

  function After(rules: Rules, calls: seq<Call>): Counters {
    if calls == [] then map[] else
      Plain(rules, After(rules, calls[..|calls| - 1]), calls[|calls| - 1]).0
  }

  function AfterEvicting(rules: Rules, calls: seq<Call>): Counters {
    if calls == [] then map[] else
      Evicting(rules, AfterEvicting(rules, calls[..|calls| - 1]), calls[|calls| - 1]).0
  }

  /** The decision on `call` after the calls before it, by the limiter that never forgets. */
  function Decided(rules: Rules, before: seq<Call>, call: Call): Decision {
    Plain(rules, After(rules, before), call).1
  }

  function DecidedEvicting(rules: Rules, before: seq<Call>, call: Call): Decision {
    Evicting(rules, AfterEvicting(rules, before), call).1
  }

  /** Rule paths hold no separator, and twice a window is still a duration. */
  predicate PlainRules(rules: Rules) {
    forall p | p in rules :: '|' !in p && (rules[p].window > 0 ==> 2 * rules[p].window <= MAX_INT64)
  }

  /** The latest clock read among the limited calls; `None` before the first. */
  function Latest(rules: Rules, calls: seq<Call>): Option<Time> {
    if calls == [] then None else
      var rest, last := Latest(rules, calls[..|calls| - 1]), calls[|calls| - 1];
      if !Limited(rules, last.path) then rest
      else if rest.Some? && rest.value >= last.now then rest
      else Some(last.now)
  }

  /** A clock read lags the latest one by at most every window in force. */
  predicate LagsLittle(rules: Rules, before: seq<Call>, now: Time) {
    var latest := Latest(rules, before);
    latest.Some? ==> forall p | p in rules && Limited(rules, p) :: now >= latest.value - rules[p].window
  }

  predicate ClockOk(rules: Rules, calls: seq<Call>) {
    forall i | 0 <= i < |calls| && Limited(rules, calls[i].path) :: LagsLittle(rules, calls[..i], calls[i].now)
  }

  lemma PathOfBucket(path: string, clientKey: string)
    requires '|' !in path
    ensures PathOf(Bucket(path, clientKey)) == path
  {
    var b := Bucket(path, clientKey);
    assert b[|path|] == '|' && b[..|path|] == path;
    Strings.IndexOfFirst(b, '|', |path|);
  }

  /** A counter the evicting limiter has dropped is one whose window cannot be running any more. */
  ghost predicate Forgets(rules: Rules, evicting: Counters, full: Counters, latest: Option<Time>) {
    && (forall b | b in evicting :: b in full && evicting[b] == full[b])
    && (forall b | b in full :: Limited(rules, PathOf(b)))
    && (forall b | b in full && b !in evicting ::
          latest.Some? && full[b].startedAt + 2 * rules[PathOf(b)].window <= latest.value)
  }

  lemma AfterStep(rules: Rules, before: seq<Call>, call: Call)
    ensures After(rules, before + [call]) == Plain(rules, After(rules, before), call).0
    ensures AfterEvicting(rules, before + [call]) == Evicting(rules, AfterEvicting(rules, before), call).0
  {
    assert (before + [call])[..|before|] == before;
  }

  lemma LatestStep(rules: Rules, before: seq<Call>, call: Call)
    ensures var rest := Latest(rules, before);
            Latest(rules, before + [call]) ==
            if !Limited(rules, call.path) || (rest.Some? && rest.value >= call.now) then rest else Some(call.now)
  {
    assert (before + [call])[..|before|] == before;
  }

  /** What is stale has been out of every window still to come for a whole window. */
  lemma StaleMeans(rules: Rules, bucket: string, c: Counter, now: Time)
    requires PlainRules(rules) && Limited(rules, PathOf(bucket))
    ensures Stale(rules, bucket, c, now) <==> c.startedAt + 2 * rules[PathOf(bucket)].window <= now
  {
    var w := rules[PathOf(bucket)].window;
    WrapExact(2 * w);
    SinceReaches(now, c.startedAt, 2 * w);
  }

  lemma SameJudgement(rules: Rules, before: seq<Call>, call: Call, evicting: Counters, full: Counters)
    requires PlainRules(rules) && Forgets(rules, evicting, full, Latest(rules, before))
    requires Limited(rules, call.path) && LagsLittle(rules, before, call.now)
    ensures var w, bucket := rules[call.path].window, Bucket(call.path, call.clientKey);
            Judged(evicting, bucket, w, call.now) == Judged(full, bucket, w, call.now)
    ensures PathOf(Bucket(call.path, call.clientKey)) == call.path
  {
    PathOfBucket(call.path, call.clientKey);
  }

  /** Before anything is dropped, a call treats both limiters alike. */
  lemma ForgetsPlain(rules: Rules, before: seq<Call>, call: Call, evicting: Counters, full: Counters)
    requires PlainRules(rules) && Forgets(rules, evicting, full, Latest(rules, before))
    requires Limited(rules, call.path) && LagsLittle(rules, before, call.now)
    ensures Plain(rules, evicting, call).1 == Plain(rules, full, call).1
    ensures Forgets(rules, Plain(rules, evicting, call).0, Plain(rules, full, call).0, Latest(rules, before + [call]))
  {
    LatestStep(rules, before, call);
    SameJudgement(rules, before, call, evicting, full);
  }

  /** What is dropped as stale cannot be running any more. */
  lemma ForgetsStale(rules: Rules, evicting: Counters, full: Counters, latest: Option<Time>, now: Time)
    requires PlainRules(rules) && Forgets(rules, evicting, full, latest) && latest.Some? && now <= latest.value
    ensures Forgets(rules, Fresh(rules, evicting, now), full, latest)
  {
    forall b | b in full
      ensures Stale(rules, b, full[b], now) ==> full[b].startedAt + 2 * rules[PathOf(b)].window <= now
    {
      StaleMeans(rules, b, full[b], now);
    }
  }

  lemma ForgetsStep(rules: Rules, before: seq<Call>, call: Call, evicting: Counters, full: Counters)
    requires PlainRules(rules) && Forgets(rules, evicting, full, Latest(rules, before))
    requires Limited(rules, call.path) ==> LagsLittle(rules, before, call.now)
    ensures Evicting(rules, evicting, call).1 == Plain(rules, full, call).1
    ensures Forgets(rules, Evicting(rules, evicting, call).0, Plain(rules, full, call).0, Latest(rules, before + [call]))
  {
    LatestStep(rules, before, call);
    if Limited(rules, call.path) {
      ForgetsPlain(rules, before, call, evicting, full);
      ForgetsStale(rules, Plain(rules, evicting, call).0, Plain(rules, full, call).0, Latest(rules, before + [call]), call.now);
    }
  }

  lemma {:induction false} ForgetsRun(rules: Rules, calls: seq<Call>)
    requires PlainRules(rules) && ClockOk(rules, calls)
    ensures Forgets(rules, AfterEvicting(rules, calls), After(rules, calls), Latest(rules, calls))
  {
    if calls != [] {
      var before, last := calls[..|calls| - 1], calls[|calls| - 1];
      assert before + [last] == calls;
      forall i | 0 <= i < |before| ensures before[..i] == calls[..i] {}
      ForgetsRun(rules, before);
      ForgetsStep(rules, before, last, AfterEvicting(rules, before), After(rules, before));
    }
  }

  /** Eviction is invisible: on every call of every run the decision and the delay are those of the limiter that never forgets. */
  lemma EvictionInvisible(rules: Rules, calls: seq<Call>, i: nat)
    requires PlainRules(rules) && ClockOk(rules, calls) && i < |calls|
    ensures DecidedEvicting(rules, calls[..i], calls[i]) == Decided(rules, calls[..i], calls[i])
  {
    forall j | 0 <= j < i ensures calls[..i][..j] == calls[..j] {}
    ForgetsRun(rules, calls[..i]);
    ForgetsStep(rules, calls[..i], calls[i], AfterEvicting(rules, calls[..i]), After(rules, calls[..i]));
  }

  // ---- How many attempts a bucket admits ----------------------------------

  /** Clock reads never go back and come after the zero time. */
  predicate Steady(calls: seq<Call>) {
    (forall i | 0 <= i < |calls| :: calls[i].now > 0) &&
    (forall i, j | 0 <= i < j < |calls| :: calls[i].now <= calls[j].now)
  }

  predicate Admits(rules: Rules, before: seq<Call>, call: Call, path: string, clientKey: string, lo: Time, hi: Time) {
    call.path == path && call.clientKey == clientKey && lo <= call.now < hi && DecidedEvicting(rules, before, call).allowed
  }

  /** The number of attempts of one client on one path admitted at an instant in [lo, hi). */
  function Admitted(rules: Rules, calls: seq<Call>, path: string, clientKey: string, lo: Time, hi: Time): nat {
    if calls == [] then 0 else
      var before, last := calls[..|calls| - 1], calls[|calls| - 1];
      Admitted(rules, before, path, clientKey, lo, hi) +
      if Admits(rules, before, last, path, clientKey, lo, hi) then 1 else 0
  }

  lemma {:induction false} LatestIsSome(rules: Rules, calls: seq<Call>)
    ensures Latest(rules, calls).Some? ==> exists i :: 0 <= i < |calls| && calls[i].now == Latest(rules, calls).value
  {
    if calls != [] {
      var before, last := calls[..|calls| - 1], calls[|calls| - 1];
      LatestIsSome(rules, before);
      if Latest(rules, calls).Some? && Latest(rules, calls) == Latest(rules, before) {
        var i :| 0 <= i < |before| && before[i].now == Latest(rules, before).value;
        assert calls[i].now == Latest(rules, calls).value;
      }
    }
  }

  lemma SteadyClockOk(rules: Rules, calls: seq<Call>)
    requires Steady(calls)
    ensures ClockOk(rules, calls)
  {
    forall i | 0 <= i < |calls| ensures LagsLittle(rules, calls[..i], calls[i].now) {
      LatestIsSome(rules, calls[..i]);
    }
  }

  /** A clock that never goes back lags by nothing, so eviction is invisible. */
  lemma SteadyInvisible(rules: Rules, before: seq<Call>, call: Call)
    requires PlainRules(rules) && Steady(before + [call])
    ensures DecidedEvicting(rules, before, call) == Decided(rules, before, call)
  {
    var calls := before + [call];
    SteadyClockOk(rules, calls);
    assert calls[..|before|] == before;
    EvictionInvisible(rules, calls, |before|);
  }

  lemma BucketInjective(p: string, k: string, q: string, l: string)
    requires '|' !in p && '|' !in q && Bucket(p, k) == Bucket(q, l)
    ensures p == q && k == l
  {
    PathOfBucket(p, k);
    PathOfBucket(q, l);
    assert Bucket(p, k)[|p| + 1..] == k && Bucket(q, l)[|q| + 1..] == l;
  }

  /** A call for another client or path leaves the bucket alone. */
  lemma OtherBucket(rules: Rules, counters: Counters, call: Call, path: string, clientKey: string)
    requires PlainRules(rules) && Limited(rules, path) && (call.path != path || call.clientKey != clientKey)
    ensures var b, next := Bucket(path, clientKey), Plain(rules, counters, call).0;
            (b in next <==> b in counters) && (b in counters ==> next[b] == counters[b])
  {
    if Limited(rules, call.path) && Bucket(call.path, call.clientKey) == Bucket(path, clientKey) {
      BucketInjective(call.path, call.clientKey, path, clientKey);
    }
  }

  /** What a bucket's counter says about the admissions in [x, x + window). */
  ghost predicate Tallied(rule: Rule, c: Counter, admitted: nat, x: Time) {
    && 0 < c.count <= rule.maxAttempts && c.startedAt > 0
    && admitted <= 2 * rule.maxAttempts
    && (c.startedAt <= x ==> admitted <= c.count)
    && (x < c.startedAt < x + rule.window ==> admitted <= rule.maxAttempts + c.count)
    && (c.startedAt + rule.window <= x ==> admitted == 0)
  }

  /** What a bucket's counter, if it has one, says about its admissions up to the instant `latest`. */
  ghost predicate TalliedBy(rule: Rule, counters: Counters, b: string, admitted: nat, x: Time, latest: Time) {
    if b in counters
    then Tallied(rule, counters[b], admitted, x) && counters[b].startedAt <= latest
    else admitted == 0
  }

  lemma TalliedStep(rules: Rules, counters: Counters, call: Call, admitted: nat, x: Time, latest: Time)
    requires Limited(rules, call.path) && 0 < call.now && latest <= call.now
    requires TalliedBy(rules[call.path], counters, Bucket(call.path, call.clientKey), admitted, x, latest)
    ensures var rule := rules[call.path];
            var counted := Plain(rules, counters, call).1.allowed && x <= call.now < x + rule.window;
            TalliedBy(rule, Plain(rules, counters, call).0, Bucket(call.path, call.clientKey),
                      admitted + (if counted then 1 else 0), x, call.now)
  {
  }

  /** One call of whatever bucket, `allowed` or not. */
  lemma TalliedNext(rules: Rules, counters: Counters, call: Call, path: string, clientKey: string,
                    admitted: nat, x: Time, latest: Time, allowed: bool)
    requires PlainRules(rules) && Limited(rules, path) && 0 < call.now && latest <= call.now
    requires TalliedBy(rules[path], counters, Bucket(path, clientKey), admitted, x, latest)
    requires allowed == Plain(rules, counters, call).1.allowed
    ensures var counted := call.path == path && call.clientKey == clientKey && x <= call.now < x + rules[path].window && allowed;
            TalliedBy(rules[path], Plain(rules, counters, call).0, Bucket(path, clientKey),
                      admitted + (if counted then 1 else 0), x, call.now)
  {
    if call.path == path && call.clientKey == clientKey {
      TalliedStep(rules, counters, call, admitted, x, latest);
    } else {
      OtherBucket(rules, counters, call, path, clientKey);
    }
  }

  lemma {:induction false} TalliedRun(rules: Rules, calls: seq<Call>, path: string, clientKey: string, x: Time)
    requires PlainRules(rules) && Limited(rules, path) && Steady(calls)
    ensures TalliedBy(rules[path], After(rules, calls), Bucket(path, clientKey),
                      Admitted(rules, calls, path, clientKey, x, x + rules[path].window), x,
                      if calls == [] then 0 else calls[|calls| - 1].now)
  {
    if calls != [] {
      var before, last := calls[..|calls| - 1], calls[|calls| - 1];
      var n := Admitted(rules, before, path, clientKey, x, x + rules[path].window);
      TalliedRun(rules, before, path, clientKey, x);
      assert before + [last] == calls;
      SteadyInvisible(rules, before, last);
      TalliedNext(rules, After(rules, before), last, path, clientKey, n, x,
                  if before == [] then 0 else before[|before| - 1].now, Decided(rules, before, last).allowed);
    }
  }

  /** No half-open interval one window long holds more than twice the allowed attempts. */
  lemma AtMostTwice(rules: Rules, calls: seq<Call>, path: string, clientKey: string, x: Time)
    requires PlainRules(rules) && Limited(rules, path) && Steady(calls)
    ensures Admitted(rules, calls, path, clientKey, x, x + rules[path].window) <= 2 * rules[path].maxAttempts
  {
    TalliedRun(rules, calls, path, clientKey, x);
  }

  /** A counter's count is covered by admissions since its window started. */
  lemma {:induction false} CountCovered(rules: Rules, calls: seq<Call>, path: string, clientKey: string, lo: Time, hi: Time)
    requires PlainRules(rules) && Limited(rules, path) && Steady(calls)
    requires Bucket(path, clientKey) in After(rules, calls) && lo <= After(rules, calls)[Bucket(path, clientKey)].startedAt
    requires forall i | 0 <= i < |calls| :: calls[i].now < hi
    ensures Admitted(rules, calls, path, clientKey, lo, hi) >= After(rules, calls)[Bucket(path, clientKey)].count
  {
    if calls != [] {
      var before, last := calls[..|calls| - 1], calls[|calls| - 1];
      var b := Bucket(path, clientKey);
      TalliedRun(rules, before, path, clientKey, lo);
      TalliedRun(rules, calls, path, clientKey, lo);
      assert before + [last] == calls;
      SteadyInvisible(rules, before, last);
      if last.path != path || last.clientKey != clientKey {
        OtherBucket(rules, After(rules, before), last, path, clientKey);
      }
      if b in After(rules, before) && lo <= After(rules, before)[b].startedAt {
        CountCovered(rules, before, path, clientKey, lo, hi);
      }
    }
  }

  /** A refusal means that the allowed attempts were already admitted within the last window. */
  lemma RefusedOnlyWhenSpent(rules: Rules, before: seq<Call>, call: Call)
    requires PlainRules(rules) && Limited(rules, call.path) && Steady(before + [call])
    requires !DecidedEvicting(rules, before, call).allowed
    ensures Admitted(rules, before, call.path, call.clientKey, call.now - rules[call.path].window + 1, call.now + 1)
            >= rules[call.path].maxAttempts
  {
    SteadyInvisible(rules, before, call);
    SteadyPrefix(before, [call]);
    forall i | 0 <= i < |before| ensures before[i].now < call.now + 1 {
      assert (before + [call])[i] == before[i] && (before + [call])[|before|] == call;
    }
    CountCovered(rules, before, call.path, call.clientKey, call.now - rules[call.path].window + 1, call.now + 1);
  }

  lemma {:induction false} UntouchedBucket(rules: Rules, calls: seq<Call>, more: seq<Call>, path: string, clientKey: string)
    requires PlainRules(rules) && Limited(rules, path)
    requires forall i | 0 <= i < |more| :: more[i].path != path || more[i].clientKey != clientKey
    requires Bucket(path, clientKey) in After(rules, calls)
    ensures Bucket(path, clientKey) in After(rules, calls + more)
    ensures After(rules, calls + more)[Bucket(path, clientKey)] == After(rules, calls)[Bucket(path, clientKey)]
  {
    if more == [] {
      assert calls + more == calls;
    } else {
      var init, last := more[..|more| - 1], more[|more| - 1];
      UntouchedBucket(rules, calls, init, path, clientKey);
      assert (calls + more)[..|calls + more| - 1] == calls + init;
      OtherBucket(rules, After(rules, calls + init), last, path, clientKey);
    }
  }

  lemma SteadyPrefix(calls: seq<Call>, more: seq<Call>)
    requires Steady(calls + more)
    ensures Steady(calls)
  {
    forall i | 0 <= i < |calls| ensures calls[i] == (calls + more)[i] {}
  }

  /** How long a refused client still has to wait: until the window of its counter is over. */
  function Remaining(rules: Rules, counters: Counters, refused: Call): int
    requires Limited(rules, refused.path) && Bucket(refused.path, refused.clientKey) in counters
  {
    counters[Bucket(refused.path, refused.clientKey)].startedAt + rules[refused.path].window - refused.now
  }

  /** A bucket that refuses tells what remains of its window, at least a second, and admits exactly when that is over. */
  lemma RefusedUntil(rules: Rules, counters: Counters, refused: Call, retry: Call, later: Counters)
    requires Limited(rules, refused.path) && retry.path == refused.path && retry.clientKey == refused.clientKey
    requires !Plain(rules, counters, refused).1.allowed
    requires var b := Bucket(refused.path, refused.clientKey);
             b in counters && counters[b].startedAt <= refused.now && b in later && later[b] == counters[b]
    ensures Delays(Plain(rules, counters, refused).1.retryAfter, Remaining(rules, counters, refused))
    ensures 0 < Remaining(rules, counters, refused) <= rules[refused.path].window
    ensures Plain(rules, later, retry).1.allowed <==> retry.now - refused.now >= Remaining(rules, counters, refused)
  {
    var rule, c := rules[refused.path], counters[Bucket(refused.path, refused.clientKey)];
    WrapExact(rule.window - Since(refused.now, c.startedAt));
  }

  /** The delay told: what remains, but never less than a second. */
  predicate Delays(retryAfter: Int64, remaining: int) {
    retryAfter == if remaining < SECOND then SECOND else remaining
  }

  /** `retry` comes from the client that was refused, with no other call for its bucket in between. */
  predicate Retries(rules: Rules, before: seq<Call>, refused: Call, between: seq<Call>, retry: Call) {
    && Steady(before + [refused] + between + [retry])
    && (forall i | 0 <= i < |between| :: between[i].path != refused.path || between[i].clientKey != refused.clientKey)
    && retry.path == refused.path && retry.clientKey == refused.clientKey
  }

  lemma RefusedCounter(rules: Rules, before: seq<Call>, refused: Call)
    requires PlainRules(rules) && Limited(rules, refused.path) && Steady(before + [refused])
    requires !DecidedEvicting(rules, before, refused).allowed
    ensures !Decided(rules, before, refused).allowed && DecidedEvicting(rules, before, refused) == Decided(rules, before, refused)
    ensures var b := Bucket(refused.path, refused.clientKey);
            && b in After(rules, before) && After(rules, before)[b].startedAt <= refused.now
            && b in After(rules, before + [refused]) && After(rules, before + [refused])[b] == After(rules, before)[b]
  {
    var calls := before + [refused];
    assert calls[..|calls| - 1] == before && calls[|calls| - 1] == refused;
    SteadyPrefix(before, [refused]);
    SteadyInvisible(rules, before, refused);
    TalliedRun(rules, before, refused.path, refused.clientKey, 0);
    assert before != [] ==> calls[|before| - 1] == before[|before| - 1];
  }

  lemma RetryDecided(rules: Rules, before: seq<Call>, refused: Call, between: seq<Call>, retry: Call)
    requires PlainRules(rules) && Limited(rules, refused.path) && Retries(rules, before, refused, between, retry)
    requires !DecidedEvicting(rules, before, refused).allowed && Bucket(refused.path, refused.clientKey) in After(rules, before)
    ensures var remaining := Remaining(rules, After(rules, before), refused);
            && 0 < remaining <= rules[refused.path].window && Delays(DecidedEvicting(rules, before, refused).retryAfter, remaining)
            && (DecidedEvicting(rules, before + [refused] + between, retry).allowed <==> retry.now - refused.now >= remaining)
  {
    var calls := before + [refused];
    SteadyInvisible(rules, calls + between, retry);
    SteadyPrefix(calls + between, [retry]);
    SteadyPrefix(calls, between);
    RefusedCounter(rules, before, refused);
    UntouchedBucket(rules, calls, between, refused.path, refused.clientKey);
    RefusedUntil(rules, After(rules, before), refused, retry, After(rules, calls + between));
  }

  /**
   * The delay told to a refused client is exact: some time remains, at most a window, such that however long it
   * waits with no other call for its bucket in between, it is admitted exactly when that time is over; and it is
   * told that time, or a second when less remains.
   */
  lemma DelayIsExact(rules: Rules, before: seq<Call>, refused: Call) returns (remaining: int)
    requires PlainRules(rules) && Limited(rules, refused.path) && Steady(before + [refused])
    requires !DecidedEvicting(rules, before, refused).allowed
    ensures 0 < remaining <= rules[refused.path].window
    ensures DecidedEvicting(rules, before, refused).retryAfter == if remaining < SECOND then SECOND else remaining
    ensures forall between: seq<Call>, retry: Call | Retries(rules, before, refused, between, retry) ::
              DecidedEvicting(rules, before + [refused] + between, retry).allowed <==> retry.now - refused.now >= remaining
  {
    RefusedCounter(rules, before, refused);
    remaining := Remaining(rules, After(rules, before), refused);
    RefusedUntil(rules, After(rules, before), refused, refused, After(rules, before));
    forall between: seq<Call>, retry: Call | Retries(rules, before, refused, between, retry)
      ensures DecidedEvicting(rules, before + [refused] + between, retry).allowed <==> retry.now - refused.now >= remaining
    {
      RetryDecided(rules, before, refused, between, retry);
    }
  }

  /** A client that was refused, waits the delay it was told and has no other call for its bucket in between is admitted. */
  lemma WaitingHelps(rules: Rules, before: seq<Call>, refused: Call, between: seq<Call>, retry: Call)
    requires PlainRules(rules) && Limited(rules, refused.path)
    requires Steady(before + [refused] + between + [retry])
    requires !DecidedEvicting(rules, before, refused).allowed
    requires forall i | 0 <= i < |between| :: between[i].path != refused.path || between[i].clientKey != refused.clientKey
    requires retry.path == refused.path && retry.clientKey == refused.clientKey
    requires retry.now >= refused.now + DecidedEvicting(rules, before, refused).retryAfter
    ensures DecidedEvicting(rules, before + [refused] + between, retry).allowed
  {
    SteadyThrough(before + [refused], between, retry);
    var remaining := DelayIsExact(rules, before, refused);
    assert Retries(rules, before, refused, between, retry);
  }

  /** One that waits less than it was told, when that is more than a second, is refused again. */
  lemma WaitingLessDoesNotHelp(rules: Rules, before: seq<Call>, refused: Call, between: seq<Call>, retry: Call)
    requires PlainRules(rules) && Limited(rules, refused.path) && Retries(rules, before, refused, between, retry)
    requires !DecidedEvicting(rules, before, refused).allowed && DecidedEvicting(rules, before, refused).retryAfter > SECOND
    requires retry.now < refused.now + DecidedEvicting(rules, before, refused).retryAfter
    ensures !DecidedEvicting(rules, before + [refused] + between, retry).allowed
  {
    SteadyThrough(before + [refused], between, retry);
    var remaining := DelayIsExact(rules, before, refused);
  }

  lemma SteadyThrough(calls: seq<Call>, between: seq<Call>, retry: Call)
    requires Steady(calls + between + [retry])
    ensures Steady(calls)
  {
    SteadyPrefix(calls + between, [retry]);
    SteadyPrefix(calls, between);
  }

  /** Only a refusal comes with a delay, and a path without a limit refuses nobody. */
  lemma AdmittedAtOnce(rules: Rules, before: seq<Call>, call: Call)
    ensures DecidedEvicting(rules, before, call).allowed ==> DecidedEvicting(rules, before, call).retryAfter == 0
    ensures !Limited(rules, call.path) ==> DecidedEvicting(rules, before, call).allowed
  {
  }

  // ---- The slack of one window is exact -----------------------------------

  function Client(k: nat): string {
    seq(k, _ => 'x')
  }

  /** The `k`-th newcomer calls two windows after the first client. */
  function Newcomer(rules: Rules, path: string, k: nat): Call
    requires path in rules
  {
    Call(path, Client(k), 1 + 2 * rules[path].window)
  }

  /** `n` attempts of the client "" at instant 1. */
  function Burst(path: string, n: nat): seq<Call> {
    if n == 0 then [] else Burst(path, n - 1) + [Call(path, "", 1)]
  }

  /** All the attempts the path allows the client "", then attempts of `k` newcomers. */
  function Crowd(rules: Rules, path: string, k: nat): seq<Call>
    requires Limited(rules, path)
  {
    if k == 0 then Burst(path, rules[path].maxAttempts) else Crowd(rules, path, k - 1) + [Newcomer(rules, path, k)]
  }

  /** The first client's counter is full and each of `k` newcomers has one of its own. */
  ghost predicate Crowded(counters: Counters, path: string, full: int, late: Time, k: nat) {
    && |counters| == k + 1
    && Bucket(path, "") in counters && counters[Bucket(path, "")] == Counter(1, full)
    && forall b | b in counters && b != Bucket(path, "") :: counters[b] == Counter(late, 1) && |b| <= |path| + 1 + k
  }

  lemma CrowdStep(rules: Rules, path: string, k: nat, counters: Counters)
    requires Limited(rules, path) && k > 0 && Crowded(counters, path, rules[path].maxAttempts, 1 + 2 * rules[path].window, k - 1)
    ensures Crowded(Plain(rules, counters, Newcomer(rules, path, k)).0, path, rules[path].maxAttempts, 1 + 2 * rules[path].window, k)
    ensures Plain(rules, counters, Newcomer(rules, path, k)).1.allowed
  {
    var b := Bucket(path, Client(k));
    assert |b| == |path| + 1 + k && |Bucket(path, "")| == |path| + 1;
    assert b !in counters;
  }

  lemma SteadyAppend(calls: seq<Call>, call: Call)
    requires Steady(calls) && call.now > 0
    requires forall i | 0 <= i < |calls| :: calls[i].now <= call.now
    ensures Steady(calls + [call])
  {
  }

  /** One more attempt of the client "" while it is allowed one. */
  lemma BurstStep(rules: Rules, path: string, n: nat, counters: Counters)
    requires Limited(rules, path) && n < rules[path].maxAttempts
    requires counters == if n == 0 then map[] else map[Bucket(path, "") := Counter(1, n)]
    ensures Plain(rules, counters, Call(path, "", 1)).0 == map[Bucket(path, "") := Counter(1, n + 1)]
    ensures Evicting(rules, counters, Call(path, "", 1)) == Plain(rules, counters, Call(path, "", 1))
  {
  }

  /** The first client's counter, alone in both tables, has counted `n` attempts. */
  ghost predicate Filled(rules: Rules, path: string, n: nat, calls: seq<Call>) {
    After(rules, calls) == (if n == 0 then map[] else map[Bucket(path, "") := Counter(1, n)])
    && AfterEvicting(rules, calls) == After(rules, calls)
  }

  lemma BurstGrows(rules: Rules, path: string, n: nat, calls: seq<Call>)
    requires Limited(rules, path) && n < rules[path].maxAttempts && Filled(rules, path, n, calls)
    ensures Filled(rules, path, n + 1, calls + [Call(path, "", 1)])
  {
    BurstStep(rules, path, n, After(rules, calls));
    AfterStep(rules, calls, Call(path, "", 1));
  }

  lemma {:induction false} BurstFills(rules: Rules, path: string, n: nat, calls: seq<Call>)
    requires Limited(rules, path) && n <= rules[path].maxAttempts && calls == Burst(path, n)
    ensures Filled(rules, path, n, calls)
  {
    if n == 0 {
      NothingFilled(rules, path);
    } else {
      var before := Burst(path, n - 1);
      BurstFills(rules, path, n - 1, before);
      BurstGrows(rules, path, n - 1, before);
    }
  }

  lemma NothingFilled(rules: Rules, path: string)
    ensures Filled(rules, path, 0, [])
  {
  }

  lemma {:induction false} BurstIsSteady(path: string, n: nat)
    ensures Steady(Burst(path, n)) && forall i | 0 <= i < |Burst(path, n)| :: Burst(path, n)[i].now == 1
  {
    if n > 0 {
      BurstIsSteady(path, n - 1);
      SteadyAppend(Burst(path, n - 1), Call(path, "", 1));
    }
  }

  lemma {:induction false} BurstLatest(rules: Rules, path: string, n: nat)
    requires Limited(rules, path) && n > 0
    ensures Latest(rules, Burst(path, n)) == Some(1)
  {
    LatestStep(rules, Burst(path, n - 1), Call(path, "", 1));
    if n > 1 {
      BurstLatest(rules, path, n - 1);
    }
  }

  /** A crowd that has gathered without an eviction. */
  ghost predicate Gathered(rules: Rules, path: string, k: nat, calls: seq<Call>)
    requires path in rules
  {
    Crowded(After(rules, calls), path, rules[path].maxAttempts, 1 + 2 * rules[path].window, k) && AfterEvicting(rules, calls) == After(rules, calls)
  }

  lemma {:induction false} CrowdGathers(rules: Rules, path: string, k: nat, calls: seq<Call>)
    requires Limited(rules, path) && k < EVICTION_THRESHOLD && calls == Crowd(rules, path, k)
    ensures Gathered(rules, path, k, calls)
  {
    if k == 0 {
      BurstFills(rules, path, rules[path].maxAttempts, calls);
    } else {
      var before := Crowd(rules, path, k - 1);
      CrowdGathers(rules, path, k - 1, before);
      CrowdGrows(rules, path, k, before);
    }
  }

  lemma CrowdGrows(rules: Rules, path: string, k: nat, calls: seq<Call>)
    requires Limited(rules, path) && 0 < k < EVICTION_THRESHOLD && Gathered(rules, path, k - 1, calls)
    ensures Gathered(rules, path, k, calls + [Newcomer(rules, path, k)])
  {
    CrowdStep(rules, path, k, After(rules, calls));
    AfterStep(rules, calls, Newcomer(rules, path, k));
  }

  lemma {:induction false} CrowdIsSteady(rules: Rules, path: string, k: nat)
    requires Limited(rules, path)
    ensures Steady(Crowd(rules, path, k))
    ensures forall i | 0 <= i < |Crowd(rules, path, k)| :: Crowd(rules, path, k)[i].now <= 1 + 2 * rules[path].window
  {
    if k == 0 {
      BurstIsSteady(path, rules[path].maxAttempts);
    } else {
      CrowdIsSteady(rules, path, k - 1);
      SteadyAppend(Crowd(rules, path, k - 1), Newcomer(rules, path, k));
    }
  }

  lemma {:induction false} CrowdLatest(rules: Rules, path: string, k: nat)
    requires Limited(rules, path)
    ensures Latest(rules, Crowd(rules, path, k)) == Some(if k == 0 then 1 else 1 + 2 * rules[path].window)
  {
    if k == 0 {
      BurstLatest(rules, path, rules[path].maxAttempts);
    } else {
      CrowdLatest(rules, path, k - 1);
      LatestStep(rules, Crowd(rules, path, k - 1), Newcomer(rules, path, k));
    }
  }

  /** The newcomer that overfills the table evicts the first client's counter. */
  lemma CrowdEvicts(rules: Rules, path: string, k: nat)
    requires PlainRules(rules) && Limited(rules, path) && k == EVICTION_THRESHOLD
    ensures Bucket(path, "") !in AfterEvicting(rules, Crowd(rules, path, k))
    ensures Bucket(path, "") in After(rules, Crowd(rules, path, k))
    ensures After(rules, Crowd(rules, path, k))[Bucket(path, "")] == Counter(1, rules[path].maxAttempts)
  {
    var b := Bucket(path, "");
    CrowdGathers(rules, path, k - 1, Crowd(rules, path, k - 1));
    var full, newcomer := After(rules, Crowd(rules, path, k - 1)), Newcomer(rules, path, k);
    CrowdStep(rules, path, k, full);
    AfterStep(rules, Crowd(rules, path, k - 1), newcomer);
    PathOfBucket(path, "");
    StaleMeans(rules, b, Plain(rules, full, newcomer).0[b], newcomer.now);
  }

  /** A client whose counter is full is refused; once it is forgotten, admitted. */
  lemma ForgottenIsAdmitted(rules: Rules, remembering: Counters, forgetting: Counters, path: string, late: Call)
    requires Limited(rules, path) && late == Call(path, "", rules[path].window)
    requires Bucket(path, "") in remembering && remembering[Bucket(path, "")] == Counter(1, rules[path].maxAttempts)
    requires Bucket(path, "") !in forgetting
    ensures !Plain(rules, remembering, late).1.allowed && Evicting(rules, forgetting, late).1.allowed
  {
  }

  /**
   * A clock read that lags one instant more than a window can be judged differently
   * after an eviction, whatever the rules, on any path they limit.
   */
  lemma SlackIsExact(rules: Rules, path: string, k: nat)
    requires PlainRules(rules) && Limited(rules, path) && k == EVICTION_THRESHOLD
    ensures var calls, late := Crowd(rules, path, k), Call(path, "", rules[path].window);
            && ClockOk(rules, calls)
            && Latest(rules, calls) == Some(late.now + rules[path].window + 1)
            && !Decided(rules, calls, late).allowed
            && DecidedEvicting(rules, calls, late).allowed
  {
    var calls := Crowd(rules, path, k);
    CrowdIsSteady(rules, path, k);
    CrowdLatest(rules, path, k);
    SteadyClockOk(rules, calls);
    CrowdEvicts(rules, path, k);
    ForgottenIsAdmitted(rules, After(rules, calls), AfterEvicting(rules, calls), path, Call(path, "", rules[path].window));
  }
}
