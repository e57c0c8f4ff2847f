/**
  The per-client fixed-window rate limiter of the story endpoint: a table from
  client key to (request count, window start), consulted once per request.
  The clock is a parameter (`now`, in milliseconds) and the table is threaded
  through pure steps, one request at a time, as the event loop serialises them.
 */
module RateLimit {

  /** Requests allowed per client and window. */
  const MaxRequests: nat := 30

  /** Window length: one hour in milliseconds. */
  const WindowMs: int := 60 * 60 * 1000

  /** The stored record of one client. */
  datatype Entry = Entry(count: nat, lastReset: int)

  /** What one call returns: the verdict and the table after it. */
  datatype Decision<K> = Decision(allowed: bool, table: map<K, Entry>)

  /** Every stored count lies in [1, MaxRequests]. */
  predicate WellFormed<K(==,!new)>(t: map<K, Entry>) {
    forall k :: k in t ==> 1 <= t[k].count <= MaxRequests
  }

  /** The reset test: strictly more than one window has elapsed. */
  predicate Expired(e: Entry, now: int) {
    now - e.lastReset > WindowMs
  }

  /** One call of the limiter for client `ip` at time `now`. */
  function Step<K(==,!new)>(t: map<K, Entry>, ip: K, now: int): (d: Decision<K>)
    ensures ip in d.table
    // an unseen client is admitted and starts a window now
    ensures ip !in t ==> d.allowed && d.table[ip] == Entry(1, now)
    // an expired window restarts, whatever the old count
    ensures ip in t && Expired(t[ip], now) ==> d.allowed && d.table[ip] == Entry(1, now)
    // inside the window, a full count denies and leaves the table as it was
    ensures ip in t && !Expired(t[ip], now) && t[ip].count >= MaxRequests ==> !d.allowed && d.table == t
    // inside the window, otherwise the count rises by one in the same window
    ensures ip in t && !Expired(t[ip], now) && t[ip].count < MaxRequests ==>
              d.allowed && d.table[ip] == Entry(t[ip].count + 1, t[ip].lastReset)
    // no other entry is created or changed
    ensures d.table - {ip} == t - {ip}
    // the count bound is an invariant
    ensures WellFormed(t) ==> WellFormed(d.table)
  {
    if ip !in t then
      Decision(true, t[ip := Entry(1, now)])
    else if Expired(t[ip], now) then
      Decision(true, t[ip := Entry(1, now)])
    else if t[ip].count >= MaxRequests then
      Decision(false, t)
    else
      Decision(true, t[ip := Entry(t[ip].count + 1, t[ip].lastReset)])
  }

  /** The reset boundary is strict: a full window that has lasted exactly
      WindowMs still denies, one millisecond later it restarts. */
  lemma {:induction false} ResetIsStrict<K(!new)>(t: map<K, Entry>, ip: K)
    requires ip in t && t[ip].count == MaxRequests
    ensures !Step(t, ip, t[ip].lastReset + WindowMs).allowed
    ensures Step(t, ip, t[ip].lastReset + WindowMs + 1).allowed
  {
  }

  /** One request of a trace: the client key and the clock reading. */
  datatype Call<K> = Call(ip: K, now: int)

  /** The verdicts of a trace, in order, and the final table. */
  datatype Trace<K> = Trace(verdicts: seq<bool>, table: map<K, Entry>)

  /** Feeds the requests to the limiter one after another. */
  function Run<K(==,!new)>(t: map<K, Entry>, reqs: seq<Call<K>>): (r: Trace<K>)
    ensures |r.verdicts| == |reqs|
    decreases |reqs|
  {
    if reqs == [] then Trace([], t)
    else
      var d := Step(t, reqs[0].ip, reqs[0].now);
      var rest := Run(d.table, reqs[1..]);
      Trace([d.allowed] + rest.verdicts, rest.table)
  }

  /** Sequential calls keep every stored count in [1, MaxRequests]. */
  lemma {:induction false} RunKeepsWellFormed<K(!new)>(t: map<K, Entry>, reqs: seq<Call<K>>)
    requires WellFormed(t)
    ensures WellFormed(Run(t, reqs).table)
    decreases |reqs|
  {
    if reqs != [] {
      RunKeepsWellFormed(Step(t, reqs[0].ip, reqs[0].now).table, reqs[1..]);
    }
  }

  /** How many requests of the trace come from `ip`. */
  function RequestsFrom<K(==,!new)>(ip: K, reqs: seq<Call<K>>): nat
    decreases |reqs|
  {
    if reqs == [] then 0
    else (if reqs[0].ip == ip then 1 else 0) + RequestsFrom(ip, reqs[1..])
  }

  /** How many requests of the trace from `ip` were allowed. */
  function AllowedFrom<K(==,!new)>(ip: K, reqs: seq<Call<K>>, verdicts: seq<bool>): nat
    requires |verdicts| == |reqs|
    decreases |reqs|
  {
    if reqs == [] then 0
    else (if reqs[0].ip == ip && verdicts[0] then 1 else 0) + AllowedFrom(ip, reqs[1..], verdicts[1..])
  }

  function Min(a: int, b: int): int {
    if a <= b then a else b
  }

  /** Requests from other clients never touch `ip`'s entry. */
  lemma {:induction false} RunLeavesOthers<K(!new)>(t: map<K, Entry>, reqs: seq<Call<K>>, ip: K)
    requires forall i :: 0 <= i < |reqs| ==> reqs[i].ip != ip
    ensures ip in Run(t, reqs).table <==> ip in t
    ensures ip in t ==> Run(t, reqs).table[ip] == t[ip]
    ensures AllowedFrom(ip, reqs, Run(t, reqs).verdicts) == 0
    decreases |reqs|
  {
    if reqs != [] {
      var d := Step(t, reqs[0].ip, reqs[0].now);
      assert forall i :: 0 <= i < |reqs[1..]| ==> reqs[1..][i] == reqs[i + 1];
      RunLeavesOthers(d.table, reqs[1..], ip);
    }
  }

  /** While no request of `ip` falls past the end of its current window, the
      limiter admits exactly as many of them as the window has room for, and
      the entry counts them all without moving the window start. */
  lemma {:induction false} WithinWindow<K(!new)>(t: map<K, Entry>, reqs: seq<Call<K>>, ip: K)
    requires WellFormed(t) && ip in t
    requires forall i :: 0 <= i < |reqs| && reqs[i].ip == ip ==> reqs[i].now - t[ip].lastReset <= WindowMs
    ensures ip in Run(t, reqs).table
    ensures Run(t, reqs).table[ip].lastReset == t[ip].lastReset
    ensures AllowedFrom(ip, reqs, Run(t, reqs).verdicts) == Min(RequestsFrom(ip, reqs), MaxRequests - t[ip].count)
    ensures Run(t, reqs).table[ip].count == t[ip].count + AllowedFrom(ip, reqs, Run(t, reqs).verdicts)
    decreases |reqs|
  {
    if reqs != [] {
      var d := Step(t, reqs[0].ip, reqs[0].now);
      assert forall i :: 0 <= i < |reqs[1..]| ==> reqs[1..][i] == reqs[i + 1];
      WithinWindow(d.table, reqs[1..], ip);
    }
  }

  /** At most MaxRequests allowed per window: from a request that opens a
      window (the client's first, or its first after the old window expired)
      on, of its requests within one window of that one, exactly
      min(n, MaxRequests) are allowed. */
  lemma {:induction false} WindowCap<K(!new)>(t: map<K, Entry>, reqs: seq<Call<K>>, ip: K)
    requires WellFormed(t)
    requires reqs != [] && reqs[0].ip == ip
    requires ip !in t || Expired(t[ip], reqs[0].now)
    requires forall i :: 0 <= i < |reqs| && reqs[i].ip == ip ==> reqs[i].now - reqs[0].now <= WindowMs
    ensures AllowedFrom(ip, reqs, Run(t, reqs).verdicts) == Min(RequestsFrom(ip, reqs), MaxRequests)
  {
    var d := Step(t, ip, reqs[0].now);
    assert forall i :: 0 <= i < |reqs[1..]| ==> reqs[1..][i] == reqs[i + 1];
    WithinWindow(d.table, reqs[1..], ip);
  }

  /** Running two traces back to back ends in the table their
      concatenation ends in... */
  lemma {:induction false} RunAppendTable<K(!new)>(t: map<K, Entry>, a: seq<Call<K>>, b: seq<Call<K>>)
    ensures Run(t, a + b).table == Run(Run(t, a).table, b).table
    decreases |a|
  {
    if a == [] {
      assert a + b == b;
    } else {
      assert (a + b)[0] == a[0] && (a + b)[1..] == a[1..] + b;
      RunAppendTable(Step(t, a[0].ip, a[0].now).table, a[1..], b);
    }
  }

  /** ...and gives the verdicts of the first trace followed by those of the second. */
  lemma {:induction false} RunAppendVerdicts<K(!new)>(t: map<K, Entry>, a: seq<Call<K>>, b: seq<Call<K>>)
    ensures Run(t, a + b).verdicts == Run(t, a).verdicts + Run(Run(t, a).table, b).verdicts
    decreases |a|
  {
    if a == [] {
      assert a + b == b;
    } else {
      var d := Step(t, a[0].ip, a[0].now);
      assert (a + b)[0] == a[0] && (a + b)[1..] == a[1..] + b;
      RunAppendVerdicts(d.table, a[1..], b);
      var x, y := Run(d.table, a[1..]).verdicts, Run(Run(d.table, a[1..]).table, b).verdicts;
      assert [d.allowed] + (x + y) == ([d.allowed] + x) + y;
    }
  }

  /** Admissions of a concatenated trace add up. */
  lemma {:induction false} AllowedFromAppend<K(!new)>(ip: K, a: seq<Call<K>>, b: seq<Call<K>>, va: seq<bool>, vb: seq<bool>)
    requires |va| == |a| && |vb| == |b|
    ensures AllowedFrom(ip, a + b, va + vb) == AllowedFrom(ip, a, va) + AllowedFrom(ip, b, vb)
    decreases |a|
  {
    if a == [] {
      assert a + b == b && va + vb == vb;
    } else {
      assert (a + b)[1..] == a[1..] + b && (va + vb)[1..] == va[1..] + vb;
      AllowedFromAppend(ip, a[1..], b, va[1..], vb);
    }
  }

  /** A client's admissions over two traces run back to back add up. */
  lemma {:induction false} AllowedFromRunAppend<K(!new)>(t: map<K, Entry>, a: seq<Call<K>>, b: seq<Call<K>>, ip: K)
    ensures AllowedFrom(ip, a + b, Run(t, a + b).verdicts)
         == AllowedFrom(ip, a, Run(t, a).verdicts) + AllowedFrom(ip, b, Run(Run(t, a).table, b).verdicts)
  {
    RunAppendVerdicts(t, a, b);
    AllowedFromAppend(ip, a, b, Run(t, a).verdicts, Run(Run(t, a).table, b).verdicts);
  }

  /** The same request repeated `n` times. */
  function Repeat<K>(r: Call<K>, n: nat): (reqs: seq<Call<K>>)
    ensures |reqs| == n
    ensures forall i :: 0 <= i < n ==> reqs[i] == r
  {
    seq(n, _ => r)
  }

  lemma {:induction false} RepeatCount<K(!new)>(ip: K, now: int, n: nat)
    ensures RequestsFrom(ip, Repeat(Call(ip, now), n)) == n
  {
    if n > 0 {
      assert Repeat(Call(ip, now), n)[1..] == Repeat(Call(ip, now), n - 1);
      RepeatCount(ip, now, n - 1);
    }
  }

  /** Requests at the last millisecond of a window fill it up. */
  lemma {:induction false} FillAtWindowEnd<K(!new)>(t: map<K, Entry>, ip: K)
    requires WellFormed(t) && ip in t
    ensures var a := Repeat(Call(ip, t[ip].lastReset + WindowMs), MaxRequests - t[ip].count);
            && ip in Run(t, a).table
            && Run(t, a).table[ip] == Entry(MaxRequests, t[ip].lastReset)
            && AllowedFrom(ip, a, Run(t, a).verdicts) == MaxRequests - t[ip].count
  {
    var a := Repeat(Call(ip, t[ip].lastReset + WindowMs), MaxRequests - t[ip].count);
    RepeatCount(ip, t[ip].lastReset + WindowMs, MaxRequests - t[ip].count);
    WithinWindow(t, a, ip);
  }

  /** Right after a window expired, up to a full window's worth of requests
      at one instant are all admitted. */
  lemma {:induction false} RestartAdmitsAll<K(!new)>(t: map<K, Entry>, ip: K, now: int, m: nat)
    requires WellFormed(t) && ip in t && Expired(t[ip], now)
    requires 0 < m <= MaxRequests
    ensures var b := Repeat(Call(ip, now), m);
            AllowedFrom(ip, b, Run(t, b).verdicts) == m
  {
    RepeatCount(ip, now, m);
    WindowCap(t, Repeat(Call(ip, now), m), ip);
  }

  /** The cap holds per fixed window, not per sliding hour: a client that
      fills its window at the last millisecond and sends m more requests one
      millisecond later is admitted MaxRequests - count + m times within that
      1 ms span; with m = MaxRequests that is almost twice the cap. */
  lemma {:induction false} SlidingHourBurst<K(!new)>(t: map<K, Entry>, ip: K, m: nat)
    requires WellFormed(t) && ip in t
    requires 0 < m <= MaxRequests
    ensures var e := t[ip];
            var reqs := Repeat(Call(ip, e.lastReset + WindowMs), MaxRequests - e.count)
                      + Repeat(Call(ip, e.lastReset + WindowMs + 1), m);
            AllowedFrom(ip, reqs, Run(t, reqs).verdicts) == MaxRequests - e.count + m
  {
    var e := t[ip];
    var a := Repeat(Call(ip, e.lastReset + WindowMs), MaxRequests - e.count);
    var b := Repeat(Call(ip, e.lastReset + WindowMs + 1), m);
    var mid := Run(t, a).table;
    assert AllowedFrom(ip, a, Run(t, a).verdicts) == MaxRequests - e.count
        && ip in mid && Expired(mid[ip], e.lastReset + WindowMs + 1) by {
      FillAtWindowEnd(t, ip);
    }
    assert WellFormed(mid) by {
      RunKeepsWellFormed(t, a);
    }
    assert AllowedFrom(ip, b, Run(mid, b).verdicts) == m by {
      RestartAdmitsAll(mid, ip, e.lastReset + WindowMs + 1, m);
    }
    AllowedFromRunAppend(t, a, b, ip);
  }
}
