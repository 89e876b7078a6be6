/** The fixed-window, per-client rate limiter of the API route: a table from
    client key to the current window's record, consulted and updated once per
    request. The wall clock is the parameter `now` (milliseconds). */
module RateLimiting {

  /** Requests admitted per client key in one window. */
  const RateLimit: int := 10

  /** Length of a window in milliseconds. */
  const RateLimitWindow: int := 60 * 1000

  /** What the table holds for one client key: the requests admitted in the
      current window and the instant at which that window expires. */
  datatype Record = Record(count: int, resetTime: int)

  type Table = map<string, Record>

  /** The table invariant: every stored window has admitted at least one and
      at most `RateLimit` requests. */
  ghost predicate Bounded(table: Table)
  {
    forall k | k in table :: 1 <= table[k].count <= RateLimit
  }

  /** The outcome of consulting the limiter once: the new table and whether
      the request was admitted. */
  datatype Transition = Transition(records: Table, admitted: bool)

  /** True when `table` holds a window for `key` that is still open at `now`:
      the boundary instant `resetTime` itself still belongs to the window. */
  predicate Live(table: Table, key: string, now: int)
  {
    key in table && now <= table[key].resetTime
  }

  /** One call of the limiter for `key` at time `now`, as a transition on the
      table: a missing or expired window is replaced by a new one holding
      this request; a live window that is full rejects; any other live window
      counts this request. */
  function Step(table: Table, key: string, now: int): (r: Transition)
    // a missing or expired window is restarted with this request counted
    ensures !Live(table, key, now) ==>
              r.admitted && r.records == table[key := Record(1, now + RateLimitWindow)]
    // a live, full window rejects and nothing changes
    ensures Live(table, key, now) && table[key].count >= RateLimit ==>
              !r.admitted && r.records == table
    // a live window with room counts one more request and keeps its expiry
    ensures Live(table, key, now) && table[key].count < RateLimit ==>
              r.admitted && r.records == table[key := Record(table[key].count + 1, table[key].resetTime)]
    // no other key's entry is touched, and the key always has an entry afterwards
    ensures key in r.records && r.records.Keys == table.Keys + {key}
    ensures forall k | k in table && k != key :: r.records[k] == table[k]
    // admitting a request and changing the table are the same thing
    ensures r.admitted <==> r.records != table
    // the count stays within 1..RateLimit
    ensures Bounded(table) ==> Bounded(r.records)
  {
    if !Live(table, key, now) then
      var restarted := Record(1, now + RateLimitWindow);
      assert key in table ==> table[key].resetTime < restarted.resetTime;
      assert table[key := restarted][key] == restarted;
      Transition(table[key := restarted], true)
    else if table[key].count >= RateLimit then
      Transition(table, false)
    else
      var counted := Record(table[key].count + 1, table[key].resetTime);
      assert table[key := counted][key] != table[key];
      Transition(table[key := counted], true)
  }

  /** The process-wide table of windows, updated in place by each request. */
  class RateLimiter {
    var records: Table

    ghost predicate Valid()
      reads this
    {
      Bounded(records)
    }

    /** The table is empty when the process starts. */
    constructor ()
      ensures records == map[] && Valid()
    {
      records := map[];
    }

    /** Decide whether a request from `ip` at time `now` is admitted, and
        record it. */
    method CheckRateLimit(ip: string, now: int) returns (admitted: bool)
      modifies this
      ensures Transition(records, admitted) == Step(old(records), ip, now)
      ensures old(Valid()) ==> Valid()
    {
      if ip !in records || now > records[ip].resetTime {
        records := records[ip := Record(1, now + RateLimitWindow)];
        return true;
      }
      var record := records[ip];
      if record.count >= RateLimit {
        return false;
      }
      records := records[ip := record.(count := record.count + 1)];
      return true;
    }
  }

  /** One request as seen by the limiter: its client key and arrival time. */
  datatype Call = Call(key: string, now: int)

  /** The table left by a sequence of calls, and each call's decision. */
  datatype Trace = Trace(records: Table, admitted: seq<bool>)

  /** Feed `calls` to the limiter one after the other, starting from `table`. */
  function Run(table: Table, calls: seq<Call>): (r: Trace)
    ensures |r.admitted| == |calls|
    decreases |calls|
  {
    if calls == [] then Trace(table, [])
    else
      var s := Step(table, calls[0].key, calls[0].now);
      var rest := Run(s.records, calls[1..]);
      Trace(rest.records, [s.admitted] + rest.admitted)
  }

  /** The calls made with client key `k`, in order. */
  function Only(k: string, calls: seq<Call>): (r: seq<Call>)
    ensures |r| <= |calls|
    ensures forall i | 0 <= i < |r| :: r[i].key == k
  {
    if calls == [] then []
    else (if calls[0].key == k then [calls[0]] else []) + Only(k, calls[1..])
  }

  /** How many of `calls` carry client key `k`. */
  function Occurrences(k: string, calls: seq<Call>): nat
  {
    |Only(k, calls)|
  }

  /** The decisions taken on the calls with client key `k`, in order. */
  function KeyDecisions(k: string, calls: seq<Call>, admitted: seq<bool>): (r: seq<bool>)
    requires |admitted| == |calls|
    ensures |r| == Occurrences(k, calls)
  {
    if calls == [] then []
    else
      (if calls[0].key == k then [admitted[0]] else [])
      + KeyDecisions(k, calls[1..], admitted[1..])
  }

  /** `n` requests against a window with room for `quota` more: the i-th is
      admitted exactly when i < quota. */
  function WindowPattern(n: nat, quota: int): (r: seq<bool>)
  {
    seq(n, i => i < quota)
  }

  /** The number of admitted requests among `decisions`. */
  function Admissions(decisions: seq<bool>): nat
  {
    if decisions == [] then 0
    else (if decisions[0] then 1 else 0) + Admissions(decisions[1..])
  }

  function Min(a: int, b: int): int
  {
    if a <= b then a else b
  }

  /** Two tables that hold the same entry (or none) for `k`. */
  predicate SameEntry(t: Table, u: Table, k: string)
  {
    (k in t <==> k in u) && (k in t ==> t[k] == u[k])
  }

  /** Starting from a table satisfying the invariant, every table a run
      passes through satisfies it. */
  lemma {:induction false} RunPreservesBounded(table: Table, calls: seq<Call>)
    requires Bounded(table)
    ensures Bounded(Run(table, calls).records)
    decreases |calls|
  {
    if calls != [] {
      var s := Step(table, calls[0].key, calls[0].now);
      RunPreservesBounded(s.records, calls[1..]);
    }
  }

  /** Admission decisions for one client key are independent of every other
      key: the decisions on `k`'s calls, and `k`'s final entry, are those of a
      run on `k`'s calls alone from any table with the same entry for `k`. */
  lemma {:induction false} KeysAreIndependent(t: Table, u: Table, k: string, calls: seq<Call>)
    requires SameEntry(t, u, k)
    ensures var mixed := Run(t, calls);
            var alone := Run(u, Only(k, calls));
            KeyDecisions(k, calls, mixed.admitted) == alone.admitted
            && SameEntry(mixed.records, alone.records, k)
    decreases |calls|
  {
    if calls != [] {
      var c := calls[0];
      var s := Step(t, c.key, c.now);
      if c.key == k {
        var s' := Step(u, c.key, c.now);
        KeysAreIndependent(s.records, s'.records, k, calls[1..]);
        assert Only(k, calls) == [c] + Only(k, calls[1..]);
        assert ([c] + Only(k, calls[1..]))[1..] == Only(k, calls[1..]);
      } else {
        KeysAreIndependent(s.records, u, k, calls[1..]);
        assert Only(k, calls) == Only(k, calls[1..]);
      }
    }
  }

  lemma WindowPatternCons(n: nat, quota: int)
    requires n > 0
    ensures WindowPattern(n, quota) == [0 < quota] + WindowPattern(n - 1, quota - 1)
  {
  }

  /** Within a live window, a client's requests are admitted in order until
      the window is full and rejected from then on; the window keeps its
      expiry and counts exactly the requests it admitted. */
  lemma {:induction false} LiveWindowDecisions(table: Table, k: string, calls: seq<Call>)
    requires k in table && table[k].count <= RateLimit
    requires forall i | 0 <= i < |calls| && calls[i].key == k :: calls[i].now <= table[k].resetTime
    ensures var run := Run(table, calls);
            var quota := RateLimit - table[k].count;
            && KeyDecisions(k, calls, run.admitted) == WindowPattern(Occurrences(k, calls), quota)
            && k in run.records
            && run.records[k] == Record(table[k].count + Min(Occurrences(k, calls), quota), table[k].resetTime)
    decreases |calls|
  {
    if calls != [] {
      var c := calls[0];
      var s := Step(table, c.key, c.now);
      var tail := Run(s.records, calls[1..]);
      var quota := RateLimit - table[k].count;
      assert Run(table, calls).admitted == [s.admitted] + tail.admitted;
      assert ([s.admitted] + tail.admitted)[1..] == tail.admitted;
      if c.key == k {
        assert Live(table, k, c.now);
        assert s.admitted == (quota > 0);
        assert s.records[k] == Record(table[k].count + (if quota > 0 then 1 else 0), table[k].resetTime);
      } else {
        assert s.records[k] == table[k];
      }
      forall i | 0 <= i < |calls| - 1 && calls[1..][i].key == k
        ensures calls[1..][i].now <= s.records[k].resetTime
      {
        assert calls[1..][i] == calls[i + 1];
      }
      LiveWindowDecisions(s.records, k, calls[1..]);
      if c.key == k {
        assert Only(k, calls) == [c] + Only(k, calls[1..]);
        WindowPatternCons(Occurrences(k, calls), quota);
      } else {
        assert Only(k, calls) == Only(k, calls[1..]);
      }
    }
  }

  /** A request that finds no live window opens one that lasts
      `RateLimitWindow` milliseconds; of it and the same client's later
      requests inside that window, the first `RateLimit` are admitted and
      every further one is rejected. */
  lemma FreshWindowDecisions(table: Table, k: string, start: int, later: seq<Call>)
    requires !Live(table, k, start)
    requires forall i | 0 <= i < |later| && later[i].key == k :: later[i].now <= start + RateLimitWindow
    ensures var calls := [Call(k, start)] + later;
            KeyDecisions(k, calls, Run(table, calls).admitted)
              == WindowPattern(1 + Occurrences(k, later), RateLimit)
  {
    var calls := [Call(k, start)] + later;
    var s := Step(table, k, start);
    assert calls[1..] == later;
    LiveWindowDecisions(s.records, k, later);
    assert Only(k, calls) == [Call(k, start)] + Only(k, later);
    WindowPatternCons(1 + Occurrences(k, later), RateLimit);
  }

  /** The number of admissions in a window pattern is the smaller of the
      requests made and the room left. */
  lemma {:induction false} WindowPatternAdmissions(n: nat, quota: int)
    requires quota >= 0
    ensures Admissions(WindowPattern(n, quota)) == Min(n, quota)
  {
    if n > 0 {
      WindowPatternCons(n, quota);
      assert WindowPattern(n, quota)[1..] == WindowPattern(n - 1, quota - 1);
      if quota > 0 {
        WindowPatternAdmissions(n - 1, quota - 1);
      } else {
        NoAdmissions(n - 1, quota - 1);
      }
    }
  }

  lemma {:induction false} NoAdmissions(n: nat, quota: int)
    requires quota <= 0
    ensures Admissions(WindowPattern(n, quota)) == 0
  {
    if n > 0 {
      WindowPatternCons(n, quota);
      assert WindowPattern(n, quota)[1..] == WindowPattern(n - 1, quota - 1);
      NoAdmissions(n - 1, quota - 1);
    }
  }

  /** No client is admitted more than `RateLimit` times in one window. */
  lemma AtMostRateLimitPerWindow(table: Table, k: string, start: int, later: seq<Call>)
    requires !Live(table, k, start)
    requires forall i | 0 <= i < |later| && later[i].key == k :: later[i].now <= start + RateLimitWindow
    ensures var calls := [Call(k, start)] + later;
            Admissions(KeyDecisions(k, calls, Run(table, calls).admitted))
              == Min(1 + Occurrences(k, later), RateLimit)
  {
    FreshWindowDecisions(table, k, start, later);
    WindowPatternAdmissions(1 + Occurrences(k, later), RateLimit);
  }
}
