/** The in-memory fixed-window limiter: eviction changes no decision, and admissions are bounded over every interval. */
module RateLimit {
  import opened Quotients

  type Client = nat

  /** `started` is the reading that opened the window; `count` is a 32-bit counter. */
  datatype Entry = Entry(started: int, count: nat)

  datatype Config = Config(maxRequests: nat, window: nat)

  datatype Request = Request(client: Client, at: int)

  type Hits = map<Client, Entry>

  const MAX_TRACKED_CLIENTS: nat := 10_000
  const U32_RANGE: nat := 0x1_0000_0000

  /** `Instant::duration_since` saturates at zero. */
  function Elapsed(now: int, started: int): nat {
    if now >= started then now - started else 0
  }

  predicate Live(cfg: Config, e: Entry, now: int) {
    Elapsed(now, e.started) < cfg.window
  }

  function LiveClients(cfg: Config, hits: Hits, now: int): set<Client> {
    set c | c in hits && Live(cfg, hits[c], now)
  }

  function Evict(cfg: Config, hits: Hits, now: int): Hits {
    if |hits| >= MAX_TRACKED_CLIENTS
    then map c | c in hits && Live(cfg, hits[c], now) :: hits[c]
    else hits
  }

  /** The client's entry once this request is counted. The increment wraps like a release-build `u32`. */
  function Touch(cfg: Config, hits: Hits, r: Request): Entry {
    var found := if r.client in hits then hits[r.client] else Entry(r.at, 0);
    var current := if Live(cfg, found, r.at) then found else Entry(r.at, 0);
    Entry(current.started, (current.count + 1) % U32_RANGE)
  }

  function Next(cfg: Config, hits: Hits, r: Request): Hits {
    var kept := Evict(cfg, hits, r.at);
    kept[r.client := Touch(cfg, kept, r)]
  }

  predicate Decide(cfg: Config, hits: Hits, r: Request) {
    Touch(cfg, Evict(cfg, hits, r.at), r).count <= cfg.maxRequests
  }

  /** The limiter as the middleware owns it. */
  class RateLimiter {
    const cfg: Config
    var hits: Hits

    constructor (cfg: Config)
      ensures this.cfg == cfg && hits == map[]
    {
      this.cfg := cfg;
      hits := map[];
    }

    method Allow(client: Client, now: int) returns (ok: bool)
      modifies this`hits
      ensures hits == Next(cfg, old(hits), Request(client, now))
      ensures ok == Decide(cfg, old(hits), Request(client, now))
      ensures |hits| <= MAX_TRACKED_CLIENTS || |hits| == |LiveClients(cfg, hits, now)|
    {
      TrackedClientsBounded(cfg, hits, Request(client, now));
      if |hits| >= MAX_TRACKED_CLIENTS {
        hits := map c | c in hits && Elapsed(now, hits[c].started) < cfg.window :: hits[c];
      }
      if client !in hits {
        hits := hits[client := Entry(now, 0)];
      }
      if Elapsed(now, hits[client].started) >= cfg.window {
        hits := hits[client := Entry(now, 0)];
      }
      hits := hits[client := hits[client].(count := (hits[client].count + 1) % U32_RANGE)];
      ok := hits[client].count <= cfg.maxRequests;
    }

    method TrackedClients() returns (n: nat)
      ensures n == |hits|
    {
      n := |hits|;
    }
  }

  // ---- whole request sequences -------------------------------------------------------

  predicate NonDecreasing(reqs: seq<Request>) {
    forall i, j :: 0 <= i < j < |reqs| ==> reqs[i].at <= reqs[j].at
  }

  function Decisions(cfg: Config, hits: Hits, reqs: seq<Request>): (r: seq<bool>)
    ensures |r| == |reqs|
    decreases |reqs|
  {
    if reqs == [] then []
    else [Decide(cfg, hits, reqs[0])] + Decisions(cfg, Next(cfg, hits, reqs[0]), reqs[1..])
  }

  /** The reference limiter: it remembers every client for ever. */
  function PlainDecisions(cfg: Config, hits: Hits, reqs: seq<Request>): (r: seq<bool>)
    ensures |r| == |reqs|
    decreases |reqs|
  {
    if reqs == [] then []
    else
      var e := Touch(cfg, hits, reqs[0]);
      [e.count <= cfg.maxRequests] + PlainDecisions(cfg, hits[reqs[0].client := e], reqs[1..])
  }

  /** What the evicting map still holds is right, and what it dropped was stale. */
  predicate Refines(cfg: Config, hits: Hits, plain: Hits, now: int) {
    && (forall c :: c in hits ==> c in plain && plain[c] == hits[c])
    && (forall c :: c in plain && c !in hits ==> plain[c].started <= now && !Live(cfg, plain[c], now))
    && (forall c :: c in plain ==> plain[c].started <= now)
  }

  lemma StepRefines(cfg: Config, hits: Hits, plain: Hits, r: Request, before: int)
    requires Refines(cfg, hits, plain, before) && before <= r.at
    ensures Touch(cfg, Evict(cfg, hits, r.at), r) == Touch(cfg, plain, r)
    ensures Refines(cfg, Next(cfg, hits, r), plain[r.client := Touch(cfg, plain, r)], r.at)
  {
  }

  lemma {:induction false} EvictionInvisibleFrom(cfg: Config, hits: Hits, plain: Hits, reqs: seq<Request>, before: int)
    requires Refines(cfg, hits, plain, before)
    requires NonDecreasing(reqs) && (reqs != [] ==> before <= reqs[0].at)
    ensures Decisions(cfg, hits, reqs) == PlainDecisions(cfg, plain, reqs)
    decreases |reqs|
  {
    if reqs == [] {
      assert Decisions(cfg, hits, reqs) == [];
    } else {
      var r := reqs[0];
      StepRefines(cfg, hits, plain, r, before);
      EvictionInvisibleFrom(cfg, Next(cfg, hits, r), plain[r.client := Touch(cfg, plain, r)], reqs[1..], r.at);
    }
  }

  /** The 32-bit count goes from its last value back to zero, and up by one from every other. */
  lemma CountWraps(cfg: Config, hits: Hits, r: Request)
    requires r.client in hits && Live(cfg, hits[r.client], r.at) && hits[r.client].count < U32_RANGE
    ensures Touch(cfg, hits, r).count == if hits[r.client].count == 0xFFFF_FFFF then 0 else hits[r.client].count + 1
    ensures Touch(cfg, hits, r).started == hits[r.client].started
  {
  }

  /** The evicting limiter decides every request exactly as one that never evicts. */
  lemma EvictionInvisible(cfg: Config, reqs: seq<Request>)
    requires NonDecreasing(reqs)
    ensures Decisions(cfg, map[], reqs) == PlainDecisions(cfg, map[], reqs)
  {
    EvictionInvisibleFrom(cfg, map[], map[], reqs, if reqs == [] then 0 else reqs[0].at);
  }

  /** After any request the map holds at most 10000 clients, or only clients with a live window. */
  lemma TrackedClientsBounded(cfg: Config, hits: Hits, r: Request)
    ensures var after := Next(cfg, hits, r);
            |after| <= MAX_TRACKED_CLIENTS || |after| == |LiveClients(cfg, after, r.at)|
  {
    var kept := Evict(cfg, hits, r.at);
    var after := Next(cfg, hits, r);
    assert after.Keys == kept.Keys + {r.client};
    if |hits| >= MAX_TRACKED_CLIENTS && cfg.window > 0 {
      assert LiveClients(cfg, after, r.at) == after.Keys;
    } else if cfg.window == 0 && |hits| >= MAX_TRACKED_CLIENTS {
      assert kept == map[];
    }
  }

  // ---- admissions over an interval ---------------------------------------------------

  function HitsWithin(reqs: seq<Request>, c: Client, from: int, length: nat): nat {
    if reqs == [] then 0
    else (if reqs[0].client == c && from <= reqs[0].at < from + length then 1 else 0)
         + HitsWithin(reqs[1..], c, from, length)
  }

  function Admitted(reqs: seq<Request>, decisions: seq<bool>, c: Client, a: int, b: int): nat
    requires |reqs| == |decisions|
  {
    if reqs == [] then 0
    else (if decisions[0] && reqs[0].client == c && a <= reqs[0].at <= b then 1 else 0)
         + Admitted(reqs[1..], decisions[1..], c, a, b)
  }

  /** At most `limit` hits by the client in any window; `U32_RANGE - 1` keeps the counter from wrapping. */
  ghost predicate AtMostPerWindow(cfg: Config, reqs: seq<Request>, c: Client, limit: nat) {
    forall t: int :: HitsWithin(reqs, c, t, cfg.window) <= limit
  }

  /** The client's open window, if any, started before the next request and has room in its counter. */
  ghost predicate Fits(cfg: Config, plain: Hits, reqs: seq<Request>, c: Client, limit: nat) {
    && limit < U32_RANGE
    && NonDecreasing(reqs)
    && AtMostPerWindow(cfg, reqs, c, limit)
    && (c in plain ==>
          && (reqs != [] ==> plain[c].started <= reqs[0].at)
          && plain[c].count + HitsWithin(reqs, c, plain[c].started, cfg.window) <= limit)
  }

  /** The counter after one more request, without the wrap-around. */
  function Counted(cfg: Config, plain: Hits, r: Request): Entry {
    if r.client in plain && Live(cfg, plain[r.client], r.at)
    then Entry(plain[r.client].started, plain[r.client].count + 1)
    else Entry(r.at, 1)
  }

  lemma FitsStep(cfg: Config, plain: Hits, reqs: seq<Request>, c: Client, limit: nat)
    requires reqs != [] && cfg.window > 0 && Fits(cfg, plain, reqs, c, limit)
    ensures Fits(cfg, plain[reqs[0].client := Touch(cfg, plain, reqs[0])], reqs[1..], c, limit)
    ensures reqs[0].client == c ==>
              Touch(cfg, plain, reqs[0]) == Counted(cfg, plain, reqs[0]) && Counted(cfg, plain, reqs[0]).count <= limit
  {
    var r := reqs[0];
    if r.client == c {
      assert HitsWithin(reqs, c, r.at, cfg.window) <= limit;
      assert Counted(cfg, plain, r).count <= limit;
    }
    forall t: int ensures HitsWithin(reqs[1..], c, t, cfg.window) <= limit {
      assert HitsWithin(reqs, c, t, cfg.window) <= limit;
    }
  }

  /** Whole windows that can still open after one opened at `s` and up to `b`. */
  function LaterWindows(cfg: Config, s: int, b: int): nat
    requires cfg.window > 0
  {
    if b >= s + cfg.window then (b - s) / cfg.window else 0
  }

  lemma LaterWindowsStep(cfg: Config, s: int, t: int, b: int)
    requires cfg.window > 0 && s + cfg.window <= t <= b
    ensures LaterWindows(cfg, t, b) + 1 <= LaterWindows(cfg, s, b)
  {
    var w := cfg.window;
    DivShift(b - s, w);
    if b >= t + w { DivMonotone(b - t, b - s - w, w); }
  }

  /** Admissions still possible for a client whose window opened at `e.started`. */
  function Room(cfg: Config, e: Entry, b: int): nat
    requires cfg.window > 0
  {
    (if e.count < cfg.maxRequests then cfg.maxRequests - e.count else 0)
    + cfg.maxRequests * LaterWindows(cfg, e.started, b)
  }

  /** One more request of the client at `t`, admitted or not, uses up room. */
  lemma RoomStep(cfg: Config, plain: Hits, r: Request, b: int)
    requires cfg.window > 0 && r.client in plain && plain[r.client].started <= r.at <= b
    ensures var e := Counted(cfg, plain, r);
            (if e.count <= cfg.maxRequests then 1 else 0) + Room(cfg, e, b) <= Room(cfg, plain[r.client], b)
  {
    var e := plain[r.client];
    if !Live(cfg, e, r.at) {
      LaterWindowsStep(cfg, e.started, r.at, b);
      MulGap(cfg.maxRequests, LaterWindows(cfg, e.started, b), LaterWindows(cfg, r.at, b));
    }
  }

  lemma PlainStep(cfg: Config, plain: Hits, reqs: seq<Request>, c: Client, a: int, b: int)
    requires reqs != []
    ensures var e := Touch(cfg, plain, reqs[0]);
            var after := plain[reqs[0].client := e];
            Admitted(reqs, PlainDecisions(cfg, plain, reqs), c, a, b)
            == (if e.count <= cfg.maxRequests && reqs[0].client == c && a <= reqs[0].at <= b then 1 else 0)
               + Admitted(reqs[1..], PlainDecisions(cfg, after, reqs[1..]), c, a, b)
  {
    var after := plain[reqs[0].client := Touch(cfg, plain, reqs[0])];
    assert PlainDecisions(cfg, plain, reqs)[1..] == PlainDecisions(cfg, after, reqs[1..]);
  }

  /** From an open window on, the reference limiter admits no more than the room left. */
  lemma {:induction false} AdmittedWithinRoom(cfg: Config, plain: Hits, reqs: seq<Request>, c: Client, a: int, b: int)
    requires cfg.window > 0 && Fits(cfg, plain, reqs, c, U32_RANGE - 1) && c in plain
    ensures Admitted(reqs, PlainDecisions(cfg, plain, reqs), c, a, b) <= Room(cfg, plain[c], b)
    decreases |reqs|
  {
    if reqs == [] {
      assert Admitted(reqs, [], c, a, b) == 0;
    } else if reqs[0].at > b {
      NoneAfter(reqs, PlainDecisions(cfg, plain, reqs), c, a, b);
    } else {
      FitsStep(cfg, plain, reqs, c, U32_RANGE - 1);
      PlainStep(cfg, plain, reqs, c, a, b);
      AdmittedWithinRoom(cfg, plain[reqs[0].client := Touch(cfg, plain, reqs[0])], reqs[1..], c, a, b);
      if reqs[0].client == c { RoomStep(cfg, plain, reqs[0], b); }
    }
  }

  lemma {:induction false} NoneAfter(reqs: seq<Request>, decisions: seq<bool>, c: Client, a: int, b: int)
    requires |reqs| == |decisions| && NonDecreasing(reqs)
    requires reqs != [] ==> reqs[0].at > b
    ensures Admitted(reqs, decisions, c, a, b) == 0
  {
    if reqs == [] {
      assert Admitted(reqs, decisions, c, a, b) == 0;
    } else {
      NoneAfter(reqs[1..], decisions[1..], c, a, b);
    }
  }

  /** The room left at the first request of the interval never exceeds the bound. */
  lemma {:induction false} AdmittedFrom(cfg: Config, plain: Hits, reqs: seq<Request>, c: Client, a: int, b: int)
    requires cfg.window > 0 && a <= b && Fits(cfg, plain, reqs, c, U32_RANGE - 1)
    ensures Admitted(reqs, PlainDecisions(cfg, plain, reqs), c, a, b)
            <= cfg.maxRequests * ((b - a) / cfg.window + 2)
    decreases |reqs|
  {
    if reqs == [] {
      DivMonotone(0, b - a, cfg.window);
    } else if c in plain && a < plain[c].started + cfg.window {
      AdmittedWithinRoom(cfg, plain, reqs, c, a, b);
      RoomBound(cfg, plain[c], a, b);
    } else {
      var after := plain[reqs[0].client := Touch(cfg, plain, reqs[0])];
      FitsStep(cfg, plain, reqs, c, U32_RANGE - 1);
      PlainStep(cfg, plain, reqs, c, a, b);
      if reqs[0].client == c && a <= reqs[0].at <= b {
        AdmittedWithinRoom(cfg, after, reqs[1..], c, a, b);
        FreshRoomBound(cfg, after[c], a, b);
      } else {
        AdmittedFrom(cfg, after, reqs[1..], c, a, b);
      }
    }
  }

  lemma RoomBound(cfg: Config, e: Entry, a: int, b: int)
    requires cfg.window > 0 && a <= b && a < e.started + cfg.window
    ensures Room(cfg, e, b) <= cfg.maxRequests * ((b - a) / cfg.window + 2)
  {
    var w := cfg.window;
    DivShift(b - a + w, w);
    DivMonotone(b - e.started, b - a + w, w);
    assert LaterWindows(cfg, e.started, b) <= (b - a) / w + 1 by { DivMonotone(0, b - a, w); }
    MulMonotone(cfg.maxRequests, LaterWindows(cfg, e.started, b) + 1, (b - a) / w + 2);
  }

  lemma FreshRoomBound(cfg: Config, e: Entry, a: int, b: int)
    requires cfg.window > 0 && a <= e.started <= b && e.count == 1
    ensures Room(cfg, e, b) + (if e.count <= cfg.maxRequests then 1 else 0)
            <= cfg.maxRequests * ((b - a) / cfg.window + 2)
  {
    var w := cfg.window;
    DivMonotone(b - e.started, b - a, w);
    DivMonotone(0, b - a, w);
    MulMonotone(cfg.maxRequests, LaterWindows(cfg, e.started, b) + 1, (b - a) / w + 2);
  }

  /** Over any interval `[a, b]` a client is admitted at most max * (floor((b - a) / window) + 2) times. */
  lemma AdmissionBound(cfg: Config, reqs: seq<Request>, c: Client, a: int, b: int)
    requires cfg.window > 0 && a <= b && NonDecreasing(reqs) && AtMostPerWindow(cfg, reqs, c, U32_RANGE - 1)
    ensures Admitted(reqs, Decisions(cfg, map[], reqs), c, a, b)
            <= cfg.maxRequests * ((b - a) / cfg.window + 2)
  {
    EvictionInvisible(cfg, reqs);
    AdmittedFrom(cfg, map[], reqs, c, a, b);
  }

  lemma {:induction false} ModestFrom(cfg: Config, plain: Hits, reqs: seq<Request>, c: Client, k: nat)
    requires cfg.window > 0 && Fits(cfg, plain, reqs, c, cfg.maxRequests)
    requires k < |reqs| && reqs[k].client == c
    ensures PlainDecisions(cfg, plain, reqs)[k]
    decreases k
  {
    FitsStep(cfg, plain, reqs, c, cfg.maxRequests);
    if k == 0 {
      assert PlainDecisions(cfg, plain, reqs)[0];
    } else {
      ModestFrom(cfg, plain[reqs[0].client := Touch(cfg, plain, reqs[0])], reqs[1..], c, k - 1);
    }
  }

  /** A client that never exceeds the limit in any window is never turned away, whatever the others do. */
  lemma ModestClientAlwaysAdmitted(cfg: Config, reqs: seq<Request>, c: Client, k: nat)
    requires 0 < cfg.window && cfg.maxRequests < U32_RANGE && NonDecreasing(reqs)
    requires AtMostPerWindow(cfg, reqs, c, cfg.maxRequests)
    requires k < |reqs| && reqs[k].client == c
    ensures Decisions(cfg, map[], reqs)[k]
  {
    EvictionInvisible(cfg, reqs);
    ModestFrom(cfg, map[], reqs, c, k);
  }
}
