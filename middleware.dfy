/** The shared HTTP middleware: the request-id choice, the CORS pre-flight short-circuit and
    the in-memory sliding-window rate limiter keyed by client IP. Times are nanoseconds. */
module Middleware {

  /** What a middleware does with the request: hand it on, or stop with a status. */
  datatype Response = Continue | Abort(status: int)

  const Minute: int := 60_000_000_000

  const TooManyRequests: int := 429
  const NoContent: int := 204

  // ---------------------------------------------------------------------------------------
  // Request id

  /** The id a request carries from here on (also echoed in the X-Request-ID response header
      and stored under "request_id"): the incoming header when one was sent, otherwise the
      freshly generated one. */
  function RequestID(header: string, generated: string): (id: string)
    ensures header != "" ==> id == header
    ensures header == "" ==> id == generated
    ensures id != "" <== generated != ""
  {
    if header == "" then generated else header
  }

  // ---------------------------------------------------------------------------------------
  // CORS

  const CorsHeaders: map<string, string> := map[
    "Access-Control-Allow-Origin" := "*",
    "Access-Control-Allow-Methods" := "GET, POST, PUT, PATCH, DELETE, OPTIONS",
    "Access-Control-Allow-Headers" :=
      "Origin, Content-Type, Content-Length, Accept-Encoding, X-CSRF-Token, Authorization, X-Request-ID",
    "Access-Control-Expose-Headers" := "X-Request-ID"]

  /** Every request gets the CORS headers; a pre-flight OPTIONS request is answered 204 and
      goes no further, every other method continues down the chain. */
  function Cors(httpMethod: string): (r: (map<string, string>, Response))
    ensures r.0 == CorsHeaders
    ensures r.1.Abort? <==> httpMethod == "OPTIONS"
    ensures r.1.Abort? ==> r.1.status == NoContent
  {
    (CorsHeaders, if httpMethod == "OPTIONS" then Abort(NoContent) else Continue)
  }

  // ---------------------------------------------------------------------------------------
  // Sliding window

  /** The timestamps of `ts` less than a minute older than `now`, in their original order. */
  function Recent(ts: seq<int>, now: int): (r: seq<int>)
    ensures |r| <= |ts|
    ensures forall i :: 0 <= i < |r| ==> r[i] in ts && now - r[i] < Minute
  {
    if ts == [] then []
    else
      var kept := Recent(ts[..|ts| - 1], now);
      if now - ts[|ts| - 1] < Minute then kept + [ts[|ts| - 1]] else kept
  }

  /** Nothing still inside the window is dropped. */
  lemma {:induction false} RecentComplete(ts: seq<int>, now: int, t: int)
    requires t in ts && now - t < Minute
    ensures t in Recent(ts, now)
  {
    if t != ts[|ts| - 1] {
      assert t in ts[..|ts| - 1] by {
        var i :| 0 <= i < |ts| && ts[i] == t;
        assert ts[..|ts| - 1][i] == t;
      }
      RecentComplete(ts[..|ts| - 1], now, t);
    }
  }

  /** Pruning twice at the same instant prunes nothing more. */
  lemma {:induction false} RecentIdempotent(ts: seq<int>, now: int)
    ensures Recent(Recent(ts, now), now) == Recent(ts, now)
  {
    if ts != [] {
      var init := ts[..|ts| - 1];
      RecentIdempotent(init, now);
      var kept := Recent(init, now);
      if now - ts[|ts| - 1] < Minute {
        assert (kept + [ts[|ts| - 1]])[..|kept|] == kept;
      }
    }
  }

  /** Appending a timestamp to the window keeps it when it is recent and drops it otherwise. */
  lemma RecentAppend(ts: seq<int>, t: int, now: int)
    ensures Recent(ts + [t], now) == if now - t < Minute then Recent(ts, now) + [t] else Recent(ts, now)
  {
    assert (ts + [t])[..|ts|] == ts;
  }

  /** The window of `ip` after pruning. A client seen before is pruned; a new one has none. */
  function Window(clients: map<string, seq<int>>, ip: string, now: int): seq<int> {
    if ip in clients then Recent(clients[ip], now) else []
  }

  /** Whether the request of `ip` at `now` is let through. */
  predicate Admits(clients: map<string, seq<int>>, limit: int, ip: string, now: int) {
    |Window(clients, ip, now)| < limit
  }

  /** The per-client timestamps once the request of `ip` at `now` has been handled: the
      pruned window is stored back (for a known client), and an admitted request is added. */
  function AfterRequest(clients: map<string, seq<int>>, limit: int, ip: string, now: int)
    : map<string, seq<int>>
  {
    var pruned := if ip in clients then clients[ip := Window(clients, ip, now)] else clients;
    if Admits(clients, limit, ip, now) then pruned[ip := Window(clients, ip, now) + [now]]
    else pruned
  }

  /** Handling the request of one client leaves every other client's window as it was. */
  lemma OtherClientsUntouched(clients: map<string, seq<int>>, limit: int, ip: string,
                              now: int, other: string)
    requires other != ip
    ensures other in AfterRequest(clients, limit, ip, now) <==> other in clients
    ensures other in clients ==> AfterRequest(clients, limit, ip, now)[other] == clients[other]
  {
  }

  /** An admitted request is recorded last and leaves at most `limit` timestamps; a rejected
      one is not recorded at all. */
  lemma AdmittedWithinLimit(clients: map<string, seq<int>>, limit: int, ip: string, now: int)
    ensures var after := AfterRequest(clients, limit, ip, now);
            ip in after && Admits(clients, limit, ip, now) ==>
              |after[ip]| <= limit && after[ip][|after[ip]| - 1] == now
    ensures var after := AfterRequest(clients, limit, ip, now);
            !Admits(clients, limit, ip, now) ==>
              (ip in after <==> ip in clients) &&
              (ip in clients ==> after[ip] == Recent(clients[ip], now))
  {
  }

  /** A rejected client stays rejected until some of its timestamps leave the window: asking
      again at the same instant is refused again and changes nothing more. */
  lemma RejectionIsStable(clients: map<string, seq<int>>, limit: int, ip: string, now: int)
    requires !Admits(clients, limit, ip, now)
    ensures var after := AfterRequest(clients, limit, ip, now);
            !Admits(after, limit, ip, now) && AfterRequest(after, limit, ip, now) == after
  {
    if ip in clients {
      RecentIdempotent(clients[ip], now);
    }
  }

  /** No client ever holds more than `limit` timestamps. */
  ghost predicate WithinLimit(clients: map<string, seq<int>>, limit: int) {
    forall ip :: ip in clients ==> |clients[ip]| <= limit
  }

  lemma AfterRequestWithinLimit(clients: map<string, seq<int>>, limit: int, ip: string,
                                now: int)
    requires WithinLimit(clients, limit)
    ensures WithinLimit(AfterRequest(clients, limit, ip, now), limit)
  {
  }

  /** `RateLimitMiddleware`: the limiter's state lives in the closure's `clients` map. */
  class RateLimiter {
    const requestsPerMinute: int
    var clients: map<string, seq<int>>

    ghost predicate Valid()
      reads this
    {
      WithinLimit(clients, requestsPerMinute)
    }

    constructor(requestsPerMinute: int)
      ensures this.requestsPerMinute == requestsPerMinute && clients == map[] && Valid()
    {
      this.requestsPerMinute := requestsPerMinute;
      clients := map[];
    }

    /** Prunes the client's timestamps to the last minute, keeping their order. */
    method Prune(timestamps: seq<int>, now: int) returns (valid: seq<int>)
      ensures valid == Recent(timestamps, now)
    {
      valid := [];
      var i := 0;
      while i < |timestamps|
        invariant 0 <= i <= |timestamps|
        invariant valid == Recent(timestamps[..i], now)
      {
        assert timestamps[..i + 1] == timestamps[..i] + [timestamps[i]];
        RecentAppend(timestamps[..i], timestamps[i], now);
        if now - timestamps[i] < Minute {
          valid := valid + [timestamps[i]];
        }
        i := i + 1;
      }
      assert timestamps[..i] == timestamps;
    }

    /** One request from `ip` at `now`: 429 and abort when the pruned window is full,
        otherwise record the request and continue. */
    method Handle(ip: string, now: int) returns (r: Response)
      requires Valid()
      modifies this`clients
      ensures Valid()
      ensures r == (if Admits(old(clients), requestsPerMinute, ip, now) then Continue
                    else Abort(TooManyRequests))
      ensures clients == AfterRequest(old(clients), requestsPerMinute, ip, now)
    {
      AfterRequestWithinLimit(clients, requestsPerMinute, ip, now);
      ghost var before := clients;
      if ip in clients {
        var valid := Prune(clients[ip], now);
        clients := clients[ip := valid];
      }
      var window := if ip in clients then clients[ip] else [];
      assert window == Window(before, ip, now);
      if |window| >= requestsPerMinute {
        return Abort(TooManyRequests);
      }
      clients := clients[ip := window + [now]];
      r := Continue;
    }
  }
}
