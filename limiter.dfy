/**
 * The request admission of the gateway. The counter is the `express-rate-limit`
 * library, which is not part of this model; it is modelled here, as an assumption,
 * as a fixed window per client with the configured `windowMs = 60000` and `max = 200`,
 * consulted only for requests that the `skip` predicate does not exempt.
 */
module RateLimiter {
  import opened GatewayPolicy

  const WindowMs: nat := 60000
  const MaxPerWindow: nat := 200
  const LimitMessage: string := "Muitas requisições. Aguarde um momento."

  /** The current window's index and each client's request count in it. */
  datatype Limiter = Limiter(window: int, hits: map<string, nat>)

  const Fresh: Limiter := Limiter(0, map[])

  /** Windows start on multiples of `WindowMs` of the wall clock. */
  function WindowOf(now: nat): int
  {
    now / WindowMs
  }

  /** The requests `client` has made in the window that contains `now`. */
  function HitsAt(l: Limiter, client: string, now: nat): nat
  {
    if l.window == WindowOf(now) && client in l.hits then l.hits[client] else 0
  }

  /** One request of `client` for `path` at `now`: the new limiter state and whether it is admitted (else a 429). */
  function Admit(l: Limiter, client: string, path: string, now: nat): (res: (Limiter, bool))
    ensures Skip(path) ==> res == (l, true)
    ensures !Skip(path) ==> HitsAt(res.0, client, now) == HitsAt(l, client, now) + 1
    ensures !Skip(path) ==> (res.1 <==> HitsAt(res.0, client, now) <= MaxPerWindow)
    ensures !Skip(path) ==> forall other :: other != client ==> HitsAt(res.0, other, now) == HitsAt(l, other, now)
  {
    if Skip(path) then (l, true)
    else
      var w := WindowOf(now);
      var base := if l.window == w then l.hits else map[];
      var n := (if client in base then base[client] else 0) + 1;
      (Limiter(w, base[client := n]), n <= MaxPerWindow)
  }

  /** The limiter's answer: the request goes on to the routes, or it is refused with a reply. */
  datatype Verdict = Pass | TooMany(status: nat, message: string)

  /**
   * One request as the middleware answers it: a counted request over the quota is refused
   * with status 429, the library's default, and the configured message.
   */
  function Limit(l: Limiter, client: string, path: string, now: nat): (res: (Limiter, Verdict))
    ensures Skip(path) ==> res == (l, Pass)
    ensures res.1.TooMany? <==> !Skip(path) && HitsAt(l, client, now) >= MaxPerWindow
    ensures res.1.TooMany? ==> res.1 == TooMany(429, LimitMessage)
  {
    var admitted := Admit(l, client, path, now);
    (admitted.0, if admitted.1 then Pass else TooMany(429, LimitMessage))
  }

  /** A run of requests of one client for one path at the given times. */
  function AdmitAll(l: Limiter, client: string, path: string, times: seq<nat>): (res: (Limiter, seq<bool>))
    ensures |res.1| == |times|
    decreases |times|
  {
    if times == [] then (l, [])
    else
      var first := Admit(l, client, path, times[0]);
      var rest := AdmitAll(first.0, client, path, times[1..]);
      (rest.0, [first.1] + rest.1)
  }

  /** Exempt paths are always admitted and never counted. */
  lemma {:induction false} SkippedAlwaysAdmitted(l: Limiter, client: string, path: string, times: seq<nat>)
    requires Skip(path)
    ensures AdmitAll(l, client, path, times).0 == l
    ensures forall k :: 0 <= k < |times| ==> AdmitAll(l, client, path, times).1[k]
    decreases |times|
  {
    if times != [] {
      SkippedAlwaysAdmitted(l, client, path, times[1..]);
    }
  }

  /** Within one window, the k-th counted request (from 0) is admitted exactly while the count stays within the quota. */
  lemma {:induction false} AdmissionInOneWindow(l: Limiter, client: string, path: string, times: seq<nat>, t0: nat)
    requires !Skip(path)
    requires forall k :: 0 <= k < |times| ==> WindowOf(times[k]) == WindowOf(t0)
    ensures forall k :: 0 <= k < |times| ==>
              (AdmitAll(l, client, path, times).1[k] <==> HitsAt(l, client, t0) + k + 1 <= MaxPerWindow)
    decreases |times|
  {
    if times != [] {
      var first := Admit(l, client, path, times[0]);
      assert HitsAt(first.0, client, t0) == HitsAt(first.0, client, times[0]);
      assert HitsAt(l, client, t0) == HitsAt(l, client, times[0]);
      AdmissionInOneWindow(first.0, client, path, times[1..], t0);
      var oks := AdmitAll(l, client, path, times).1;
      var rest := AdmitAll(first.0, client, path, times[1..]).1;
      assert oks == [first.1] + rest;
      forall k | 0 <= k < |times|
        ensures oks[k] <==> HitsAt(l, client, t0) + k + 1 <= MaxPerWindow
      {
        if k > 0 {
          assert oks[k] == rest[k - 1];
          assert rest[k - 1] <==> HitsAt(first.0, client, t0) + (k - 1) + 1 <= MaxPerWindow;
        } else {
          assert oks[0] == first.1;
          assert first.1 <==> HitsAt(first.0, client, times[0]) <= MaxPerWindow;
        }
      }
    }
  }

  /** From a client's first request in a window, `max` requests are admitted and request `max + 1` is rejected. */
  lemma QuotaPlusOneRejected(l: Limiter, client: string, path: string, times: seq<nat>)
    requires !Skip(path)
    requires |times| == MaxPerWindow + 1
    requires forall k :: 0 <= k < |times| ==> WindowOf(times[k]) == WindowOf(times[0])
    requires HitsAt(l, client, times[0]) == 0
    ensures var oks := AdmitAll(l, client, path, times).1;
            (forall k :: 0 <= k < MaxPerWindow ==> oks[k]) && !oks[MaxPerWindow]
  {
    AdmissionInOneWindow(l, client, path, times, times[0]);
  }

  /** A limiter that has seen no request admits 200 requests of a client in one window and refuses the next. */
  lemma FreshLimiterQuota(client: string, path: string, times: seq<nat>)
    requires !Skip(path)
    requires |times| == MaxPerWindow + 1
    requires forall k :: 0 <= k < |times| ==> WindowOf(times[k]) == WindowOf(times[0])
    ensures var oks := AdmitAll(Fresh, client, path, times).1;
            (forall k :: 0 <= k < MaxPerWindow ==> oks[k]) && !oks[MaxPerWindow]
  {
    QuotaPlusOneRejected(Fresh, client, path, times);
  }
}
