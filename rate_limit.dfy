/** The in-memory fixed-window rate limiter: one bucket per (endpoint kind, client
    address), holding the number of calls in the current window and the time the
    window ends. */
module RateLimit {
  import opened Base
  import opened Settings

  /** The two endpoint kinds the handlers pass to the limiter. */
  datatype Kind = Start | Next

  function KindName(kind: Kind): string {
    match kind
    case Start => "start"
    case Next => "next"
  }

  /** `request.client.host`, or "unknown" when the request has no client address. */
  function ClientHost(client: Option<string>): string {
    if client.Some? then client.value else "unknown"
  }

  /** The per-kind maximum: the start maximum for `start`, the next maximum otherwise. */
  function MaxAllowed(cfg: Config, kind: Kind): int {
    if kind == Start then cfg.startMax else cfg.nextMax
  }

  /** The bucket key `rl:{kind}:{ip}`. */
  function BucketKey(kind: Kind, ip: string): string {
    "rl:" + KindName(kind) + ":" + ip
  }

  /** The key string identifies the pair: different kinds or addresses never share a bucket. */
  lemma BucketKeyInjective(k1: Kind, ip1: string, k2: Kind, ip2: string)
    ensures BucketKey(k1, ip1) == BucketKey(k2, ip2) <==> k1 == k2 && ip1 == ip2
  {
    var s1, s2 := BucketKey(k1, ip1), BucketKey(k2, ip2);
    if s1 == s2 {
      assert s1[3] == s2[3];
      assert k1 == k2;
      var n := |"rl:" + KindName(k1) + ":"|;
      assert ip1 == s1[n..];
      assert ip2 == s2[n..];
    }
  }

  datatype Bucket = Bucket(count: int, resetAt: int)

  /** The table after one call, and whether the call was let through. */
  datatype Charged = Charged(buckets: map<string, Bucket>, admitted: bool)

  /** One call against the bucket `key` at time `now`. A missing or elapsed bucket
      starts a new window with count 1 and admits; otherwise the count goes up by
      one, and the call is rejected when the new count is above the maximum. The
      incremented count is kept either way, and no other bucket changes. */
  function Charge(buckets: map<string, Bucket>, key: string, maxAllowed: int, window: int, now: int): (r: Charged)
    ensures r.buckets.Keys == buckets.Keys + {key}
    ensures forall k :: k in buckets && k != key ==> r.buckets[k] == buckets[k]
    ensures key !in buckets || now > buckets[key].resetAt ==>
      r.admitted && r.buckets[key] == Bucket(1, now + window)
    ensures key in buckets && now <= buckets[key].resetAt ==>
      && r.buckets[key] == Bucket(buckets[key].count + 1, buckets[key].resetAt)
      && (r.admitted <==> buckets[key].count + 1 <= maxAllowed)
  {
    if key !in buckets || now > buckets[key].resetAt then
      Charged(buckets[key := Bucket(1, now + window)], true)
    else
      var b := buckets[key];
      var count := b.count + 1;
      Charged(buckets[key := Bucket(count, b.resetAt)], count <= maxAllowed)
  }

  /** The table after a run of calls, and the admission of each call, in order. */
  datatype Run = Run(buckets: map<string, Bucket>, admitted: seq<bool>)

  /** A run of calls against one bucket, at the given times: the final table and
      the admission of each call, in order. */
  function ChargeAll(buckets: map<string, Bucket>, key: string, maxAllowed: int, window: int, times: seq<int>): (r: Run)
    ensures |r.admitted| == |times|
    decreases |times|
  {
    if times == [] then Run(buckets, [])
    else
      var c := Charge(buckets, key, maxAllowed, window, times[0]);
      var rest := ChargeAll(c.buckets, key, maxAllowed, window, times[1..]);
      Run(rest.buckets, [c.admitted] + rest.admitted)
  }

  /** Calls inside a running window whose count is `count` at the start: the j-th of
      them is admitted exactly when `count + j + 1` is within the maximum. */
  lemma {:induction false} ChargeWithinWindow(buckets: map<string, Bucket>, key: string, maxAllowed: int, window: int, times: seq<int>)
    requires key in buckets
    requires forall j :: 0 <= j < |times| ==> times[j] <= buckets[key].resetAt
    ensures var r := ChargeAll(buckets, key, maxAllowed, window, times);
      && r.buckets.Keys == buckets.Keys
      && (forall k :: k in buckets && k != key ==> r.buckets[k] == buckets[k])
      && r.buckets[key] == Bucket(buckets[key].count + |times|, buckets[key].resetAt)
      && forall j :: 0 <= j < |times| ==> (r.admitted[j] <==> buckets[key].count + j + 1 <= maxAllowed)
    decreases |times|
  {
    if times != [] {
      var c := Charge(buckets, key, maxAllowed, window, times[0]);
      ChargeWithinWindow(c.buckets, key, maxAllowed, window, times[1..]);
    }
  }

  /** Fixed-window admission: starting with no live window for `key`, a run of calls
      that all fall inside the window opened by the first leaves the count at the
      number of calls, admits the first call always and the n-th (n >= 2) exactly
      when n <= the maximum, and touches no other bucket. */
  lemma NthCallInWindow(buckets: map<string, Bucket>, key: string, maxAllowed: int, window: int, times: seq<int>)
    requires |times| >= 1
    requires key !in buckets || times[0] > buckets[key].resetAt
    requires forall j :: 0 <= j < |times| ==> times[j] <= times[0] + window
    ensures var r := ChargeAll(buckets, key, maxAllowed, window, times);
      && r.buckets.Keys == buckets.Keys + {key}
      && (forall k :: k in buckets && k != key ==> r.buckets[k] == buckets[k])
      && r.buckets[key] == Bucket(|times|, times[0] + window)
      && (forall j :: 1 <= j < |times| ==> (r.admitted[j] <==> j + 1 <= maxAllowed))
      && r.admitted[0]
  {
    var c := Charge(buckets, key, maxAllowed, window, times[0]);
    ChargeWithinWindow(c.buckets, key, maxAllowed, window, times[1..]);
  }

  /** With the default settings, a client that opens a `start` window may make ten
      calls in the next 60 seconds; the eleventh is rejected. */
  lemma DefaultStartLimit(buckets: map<string, Bucket>, ip: string, times: seq<int>)
    requires |times| == 11
    requires var key := BucketKey(Start, ip); key !in buckets || times[0] > buckets[key].resetAt
    requires forall j :: 0 <= j < |times| ==> times[j] <= times[0] + Defaults.rateWindow
    ensures var r := ChargeAll(buckets, BucketKey(Start, ip), MaxAllowed(Defaults, Start), Defaults.rateWindow, times);
      (forall j :: 0 <= j < 10 ==> r.admitted[j]) && !r.admitted[10]
  {
    NthCallInWindow(buckets, BucketKey(Start, ip), MaxAllowed(Defaults, Start), Defaults.rateWindow, times);
  }
}
