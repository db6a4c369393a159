/** The Transport superclass: the pending-request table, the per-URL response
    cache with single-flight GETs, response envelopes, resolution by status
    and the timeout sweep. The state is an immutable value; promises are
    represented by the id of the deferred that backs them, and what happens
    to a promise is recorded in a settlement log. */
module Transports {
  import opened Js
  import opened Requests
  import opened Wire

  /** The options object the constructor receives; a property is `None` when
      it is absent from the object. */
  datatype Options = Options(timeout: Option<int>, timeoutCheckInterval: Option<int>)

  /** The options after the constructor has filled in its defaults. */
  datatype Settings = Settings(timeout: int, timeoutCheckInterval: int)

  const DefaultTimeout: int := 0
  const DefaultTimeoutCheckInterval: int := 100

  /** A pending request: its config and, when a timeout applies, the time
      after which it counts as timed out. */
  datatype Pending = Pending(config: RequestConfig, timeoutAfter: Option<int>)

  /** How a deferred was settled. */
  datatype Outcome = Resolved | Rejected

  /** One entry of the settlement log: the promise of request `id` was
      resolved or rejected with `response`. */
  datatype Settlement = Settlement(id: Id, outcome: Outcome, response: Response)

  /** Which cache a cacheable GET uses: the transport's default cache, or one
      supplied in the request config. */
  datatype Store = DefaultStore | SuppliedStore(ref: nat)

  datatype CacheKey = CacheKey(store: Store, url: string)

  /** What a cache holds under a URL: the promise of the request in flight, or
      a copy of the successful response it produced. */
  datatype CacheSlot = InFlight(handle: Id) | Snapshot(response: Response)

  datatype TransportError =
    | UnknownRequest(id: Id)   // a response for an id that is not pending
    | NotAnObject              // an inbound `null` message was dereferenced
    | InvalidTransport(kind: string)

  datatype Result<T> = Success(value: T) | Failure(error: TransportError)

  /** The transport state.
      - `requests`: the pending-request table, keyed by request id;
      - `cache`: every cache the transport has written to, keyed by store and URL;
      - `hooks`: the cache-update listeners attached to promises, mapping the
        request id of an in-flight cacheable GET to its cache key;
      - `writes`: every object written to the socket, in order;
      - `settled`: every promise settlement, in order. */
  datatype Transport = Transport(
    settings: Settings,
    requests: map<Id, Pending>,
    cache: map<CacheKey, CacheSlot>,
    hooks: map<Id, CacheKey>,
    writes: seq<Json>,
    settled: seq<Settlement>)

  /** What `send` gives back: the next state and the promise (by id) the
      caller receives. */
  datatype Sent = Sent(next: Transport, handle: Id)

  /* ---------------------------------------------------------------------
     State invariants
     --------------------------------------------------------------------- */

  /** The invariants every reachable state keeps:
      - every cache-update listener belongs to a pending request, and the
        key it will update holds that request's promise;
      - every in-flight promise in a cache has its listener, so no cache key
        keeps the promise of a request that is no longer pending;
      - only successful responses are stored as snapshots;
      - no id is settled twice, and a settled id is no longer pending;
      - each settlement carries its own id and is a resolution exactly when
        its status is a success status. */
  ghost predicate Valid(t: Transport)
  {
    && (forall h :: h in t.hooks ==> h in t.requests)
    && (forall h :: h in t.hooks ==>
          t.hooks[h] in t.cache && t.cache[t.hooks[h]] == InFlight(h))
    && (forall k :: k in t.cache && t.cache[k].InFlight? ==>
          t.cache[k].handle in t.hooks && t.hooks[t.cache[k].handle] == k)
    && (forall k :: k in t.cache && t.cache[k].Snapshot? ==>
          IsSuccessStatus(t.cache[k].response.status))
    && SettledOnce(t.settled)
    && (forall i :: 0 <= i < |t.settled| ==> t.settled[i].id !in t.requests)
    && (forall i :: 0 <= i < |t.settled| ==> WellClassified(t.settled[i]))
  }

  /** No request id appears twice in a settlement log. */
  ghost predicate SettledOnce(log: seq<Settlement>)
  {
    forall i, j :: 0 <= i < j < |log| ==> log[i].id != log[j].id
  }

  ghost predicate WellClassified(s: Settlement)
  {
    && s.response.id == s.id
    && (s.outcome == Resolved <==> IsSuccessStatus(s.response.status))
  }

  ghost predicate WasSettled(t: Transport, id: Id)
  {
    exists i :: 0 <= i < |t.settled| && t.settled[i].id == id
  }

  /** An id that no part of the state has seen: what the random UUID of
      `generateUuid` stands for. A UUID is never the empty string. */
  ghost predicate Fresh(t: Transport, id: Id)
  {
    && id != ""
    && id !in t.requests
    && id !in t.hooks
    && forall i :: 0 <= i < |t.settled| ==> t.settled[i].id != id
  }

  /* ---------------------------------------------------------------------
     Construction
     --------------------------------------------------------------------- */

  /** JavaScript's `v || d` for an optional number. */
  function OrDefault(v: Option<int>, d: int): int
  {
    if v.Some? && v.value != 0 then v.value else d
  }

  /** The constructor: defaults for a missing (or zero) timeout and check
      interval, an empty table, nothing written or settled. Scheduling the
      periodic sweep is left to the caller of `RunTimeoutCheck`. */
  function NewTransport(o: Options): (t: Transport)
    ensures Valid(t)
    ensures t.requests == map[] && t.cache == map[] && t.writes == [] && t.settled == []
    ensures t.settings.timeout == (if o.timeout.Some? then o.timeout.value else DefaultTimeout)
    ensures t.settings.timeoutCheckInterval ==
              (if o.timeoutCheckInterval.Some? && o.timeoutCheckInterval.value != 0
               then o.timeoutCheckInterval.value else DefaultTimeoutCheckInterval)
  {
    Transport(
      Settings(OrDefault(o.timeout, DefaultTimeout),
               OrDefault(o.timeoutCheckInterval, DefaultTimeoutCheckInterval)),
      map[], map[], map[], [], [])
  }

  /* ---------------------------------------------------------------------
     Responses and resolution
     --------------------------------------------------------------------- */

  /** `createHttpResponse`: the envelope for pending request `id`. A status
      that is not a number becomes 200; headers are always empty; the config
      is the one the request was sent with. */
  function CreateHttpResponse(t: Transport, id: Id, status: Json, data: Json): (r: Response)
    requires id in t.requests
    ensures r.id == id && r.data == data && r.headers == map[]
    ensures r.config == t.requests[id].config
    ensures status.JNum? ==> r.status == status.n
    ensures !status.JNum? ==> r.status == 200
  {
    Response(id, data, if status.JNum? then status.n else 200, map[], t.requests[id].config)
  }

  /** `createHttpTimeoutResponse`: status 0, which is never a success. */
  function CreateHttpTimeoutResponse(t: Transport, id: Id, error: Json): (r: Response)
    requires id in t.requests
    ensures r.id == id && r.data == error && r.headers == map[]
    ensures r.config == t.requests[id].config
    ensures r.status == 0 && !IsSuccessStatus(r.status)
  {
    CreateHttpResponse(t, id, JNum(0), error)
  }

  function Classify(status: int): (o: Outcome)
    ensures o == Resolved <==> IsSuccessStatus(status)
  {
    if IsSuccessStatus(status) then Resolved else Rejected
  }

  /** The listeners `send` attaches to the promise of a cache miss, run when
      request `id` settles: a resolution stores a copy of the response under
      the URL, a rejection removes the URL, so that the next GET retries. */
  function UpdateCacheOnSettlement(t: Transport, id: Id, outcome: Outcome, r: Response): (t': Transport)
    ensures t'.requests == t.requests && t'.writes == t.writes
    ensures t'.settled == t.settled && t'.settings == t.settings
    ensures id !in t.hooks ==> t'.cache == t.cache && t'.hooks == t.hooks
    ensures id in t.hooks ==> t'.hooks == t.hooks - {id}
    ensures id in t.hooks && outcome == Resolved ==>
              t'.cache == t.cache[t.hooks[id] := Snapshot(r)]
    ensures id in t.hooks && outcome == Rejected ==>
              t'.cache == t.cache - {t.hooks[id]}
  {
    if id !in t.hooks then t
    else
      var key := t.hooks[id];
      var cache := if outcome == Resolved then t.cache[key := Snapshot(r)] else t.cache - {key};
      t.(cache := cache, hooks := t.hooks - {id})
  }

  /** The body of `resolveResponse` once the entry is known to be pending:
      drop the entry, settle its promise by status, run its listeners. */
  function ResolvePending(t: Transport, r: Response): (t': Transport)
    requires r.id in t.requests
    ensures t'.requests == t.requests - {r.id}
    ensures t'.settled == t.settled + [Settlement(r.id, Classify(r.status), r)]
    ensures t'.writes == t.writes && t'.settings == t.settings
  {
    var outcome := Classify(r.status);
    var dropped := t.(requests := t.requests - {r.id},
                      settled := t.settled + [Settlement(r.id, outcome, r)]);
    UpdateCacheOnSettlement(dropped, r.id, outcome, r)
  }

  /** `resolveResponse`: removes exactly the response's id from the table and
      settles that request once, as a resolution for a 2xx status and as a
      rejection otherwise. For an id that is not pending the source
      dereferences a missing entry and throws; here that is an error and
      nothing changes. */
  function ResolveResponse(t: Transport, r: Response): (res: Result<Transport>)
    ensures r.id !in t.requests <==> res == Failure(UnknownRequest(r.id))
    ensures res.Success? ==> res.value.requests == t.requests - {r.id}
    ensures res.Success? ==> res.value.writes == t.writes
    ensures res.Success? ==>
              res.value.settled ==
                t.settled + [Settlement(r.id, if 200 <= r.status < 300 then Resolved else Rejected, r)]
    ensures res.Success? ==> res.value.settings == t.settings && res.value.hooks == t.hooks - {r.id}
    ensures res.Success? && r.id in t.hooks && 200 <= r.status < 300 ==>
              res.value.cache == t.cache[t.hooks[r.id] := Snapshot(r)]
    ensures res.Success? && r.id in t.hooks && !(200 <= r.status < 300) ==>
              res.value.cache == t.cache - {t.hooks[r.id]}
    ensures res.Success? && r.id !in t.hooks ==> res.value.cache == t.cache
  {
    if r.id !in t.requests then Failure(UnknownRequest(r.id))
    else Success(ResolvePending(t, r))
  }

  /** Resolving keeps every invariant, and a pending id, once resolved, can
      never be settled again. */
  lemma ResolvePendingPreservesValid(t: Transport, r: Response)
    requires Valid(t) && r.id in t.requests
    ensures Valid(ResolvePending(t, r))
    ensures ResolvePending(t, r).cache.Keys <= t.cache.Keys
  {
  }

  /** A second resolution of the same id is refused and changes nothing:
      settlement happens at most once per id. */
  lemma ResolveTwiceFails(t: Transport, r: Response, r2: Response)
    requires r.id in t.requests && r2.id == r.id
    ensures ResolveResponse(t, r).Success?
    ensures ResolveResponse(ResolveResponse(t, r).value, r2) == Failure(UnknownRequest(r.id))
  {
  }

  /* ---------------------------------------------------------------------
     Sending
     --------------------------------------------------------------------- */

  /** The timeout that applies to a request: a numeric per-request `timeout`
      overrides the configured default. */
  function EffectiveTimeout(configured: int, cfg: RequestConfig): int
  {
    if cfg.timeout.Some? then cfg.timeout.value else configured
  }

  /** `timeoutAfter` for a request sent at `now`: set only when the timeout
      that applies is positive. */
  function Deadline(configured: int, cfg: RequestConfig, now: int): (d: Option<int>)
    ensures cfg.timeout.Some? ==>
              d == (if cfg.timeout.value > 0 then Some(now + cfg.timeout.value) else None)
    ensures cfg.timeout.None? ==>
              d == (if configured > 0 then Some(now + configured) else None)
  {
    var timeout := EffectiveTimeout(configured, cfg);
    if timeout > 0 then Some(now + timeout) else None
  }

  /** `createDeferred`: records request `id` as pending. */
  function CreateDeferred(t: Transport, cfg: RequestConfig, id: Id, now: int): (t': Transport)
    ensures t'.requests == t.requests[id := Pending(cfg, Deadline(t.settings.timeout, cfg, now))]
    ensures t'.cache == t.cache && t'.hooks == t.hooks
    ensures t'.writes == t.writes && t'.settled == t.settled && t'.settings == t.settings
  {
    t.(requests := t.requests[id := Pending(cfg, Deadline(t.settings.timeout, cfg, now))])
  }

  /** `transmit`: the tagged copy of the config goes onto the socket. */
  function Transmit(t: Transport, id: Id, cfg: RequestConfig): (t': Transport)
    ensures t'.writes == t.writes + [Outbound(id, cfg)]
    ensures t'.requests == t.requests && t'.cache == t.cache && t'.hooks == t.hooks
    ensures t'.settled == t.settled && t'.settings == t.settings
  {
    t.(writes := t.writes + [Outbound(id, cfg)])
  }

  /** A request goes through the cache when it is a GET with a truthy
      `cache` property. */
  predicate IsCacheable(cfg: RequestConfig)
  {
    cfg.cache != NoCache && cfg.httpMethod == "GET"
  }

  /** The cache and URL a cacheable request is looked up under. */
  function KeyOf(cfg: RequestConfig): CacheKey
  {
    var store := if cfg.cache.SuppliedCache? then SuppliedStore(cfg.cache.store) else DefaultStore;
    CacheKey(store, cfg.url)
  }

  /** `send` without the cache: one new pending entry under the newId id,
      holding the config, and one write tagged with that id. */
  function SendUncached(t: Transport, cfg: RequestConfig, newId: Id, now: int): (s: Sent)
    requires Fresh(t, newId)
    ensures s.handle == newId
    ensures s.next.requests == t.requests[newId := Pending(cfg, Deadline(t.settings.timeout, cfg, now))]
    ensures s.next.writes == t.writes + [Outbound(newId, cfg)]
    ensures s.next.cache == t.cache && s.next.hooks == t.hooks && s.next.settled == t.settled
    ensures s.next.settings == t.settings
  {
    Sent(Transmit(CreateDeferred(t, cfg, newId, now), newId, cfg), newId)
  }

  /** A cacheable GET whose URL is not cached: sent like any request, with
      its promise stored in the cache and a listener attached to it. */
  function SendCacheMiss(t: Transport, cfg: RequestConfig, newId: Id, now: int): (s: Sent)
    requires Fresh(t, newId)
    ensures s.handle == newId
    ensures s.next.requests == t.requests[newId := Pending(cfg, Deadline(t.settings.timeout, cfg, now))]
    ensures s.next.writes == t.writes + [Outbound(newId, cfg)]
    ensures s.next.cache == t.cache[KeyOf(cfg) := InFlight(newId)]
    ensures s.next.hooks == t.hooks[newId := KeyOf(cfg)]
    ensures s.next.settled == t.settled && s.next.settings == t.settings
  {
    var key := KeyOf(cfg);
    var t1 := CreateDeferred(t, cfg, newId, now);
    var t2 := t1.(hooks := t1.hooks[newId := key], cache := t1.cache[key := InFlight(newId)]);
    Sent(Transmit(t2, newId, cfg), newId)
  }

  /** A cacheable GET whose URL holds a snapshot: a new request is recorded
      and at once resolved with a copy of the snapshot re-tagged with the new
      id; nothing is written and the table ends as it began. */
  function SendCacheHit(t: Transport, cfg: RequestConfig, newId: Id, now: int, snapshot: Response): (s: Sent)
    requires Fresh(t, newId)
    ensures s.handle == newId
    ensures s.next.requests == t.requests
    ensures s.next.writes == t.writes
    ensures s.next.cache == t.cache && s.next.hooks == t.hooks && s.next.settings == t.settings
    ensures s.next.settled ==
              t.settled + [Settlement(newId, Classify(snapshot.status), snapshot.(id := newId))]
  {
    var t1 := CreateDeferred(t, cfg, newId, now);
    var copy := snapshot.(id := newId);
    assert t1.requests - {newId} == t.requests;
    Sent(ResolvePending(t1, copy), newId)
  }

  /** `Transport.prototype.send`. A GET with a truthy `cache` property
      consults the cache: a miss sends and caches the promise, an in-flight
      promise is handed back as it is, a snapshot is replayed. Every other
      request is sent uncached. */
  function Send(t: Transport, cfg: RequestConfig, newId: Id, now: int): (s: Sent)
    requires Fresh(t, newId)
    ensures !IsCacheable(cfg) ==> s == SendUncached(t, cfg, newId, now)
    ensures IsCacheable(cfg) && KeyOf(cfg) !in t.cache ==> s == SendCacheMiss(t, cfg, newId, now)
    ensures IsCacheable(cfg) && KeyOf(cfg) in t.cache && t.cache[KeyOf(cfg)].InFlight? ==>
              s == Sent(t, t.cache[KeyOf(cfg)].handle)
    ensures IsCacheable(cfg) && KeyOf(cfg) in t.cache && t.cache[KeyOf(cfg)].Snapshot? ==>
              s == SendCacheHit(t, cfg, newId, now, t.cache[KeyOf(cfg)].response)
    ensures |s.next.writes| <= |t.writes| + 1
    ensures s.next.writes[..|t.writes|] == t.writes
    ensures s.next.settings == t.settings
  {
    if IsCacheable(cfg) then
      var key := KeyOf(cfg);
      if key !in t.cache then SendCacheMiss(t, cfg, newId, now)
      else match t.cache[key]
        case InFlight(handle) => Sent(t, handle)
        case Snapshot(snapshot) => SendCacheHit(t, cfg, newId, now, snapshot)
    else SendUncached(t, cfg, newId, now)
  }

  /** Sending keeps every invariant; a replayed snapshot always resolves,
      since only successful responses are ever cached. */
  lemma SendPreservesValid(t: Transport, cfg: RequestConfig, newId: Id, now: int)
    requires Valid(t) && Fresh(t, newId)
    ensures Valid(Send(t, cfg, newId, now).next)
    ensures IsCacheable(cfg) && KeyOf(cfg) in t.cache && t.cache[KeyOf(cfg)].Snapshot? ==>
              Send(t, cfg, newId, now).next.settled[|t.settled|].outcome == Resolved
  {
    if IsCacheable(cfg) && KeyOf(cfg) in t.cache && t.cache[KeyOf(cfg)].Snapshot? {
      var snapshot := t.cache[KeyOf(cfg)].response;
      var t1 := CreateDeferred(t, cfg, newId, now);
      assert Valid(t1);
      ResolvePendingPreservesValid(t1, snapshot.(id := newId));
    }
  }

  /* ---------------------------------------------------------------------
     Timeout sweep
     --------------------------------------------------------------------- */

  /** `timeoutAfter` is truthy (set and non-zero) and strictly in the past. */
  predicate IsExpired(p: Pending, now: int)
  {
    p.timeoutAfter.Some? && p.timeoutAfter.value != 0 && p.timeoutAfter.value < now
  }

  function ExpiredIds(t: Transport, now: int): set<Id>
  {
    set id | id in t.requests && IsExpired(t.requests[id], now)
  }

  /** The ids settled after position `from` of the log. */
  function SettledSince(t: Transport, from: nat): set<Id>
  {
    set i | from <= i < |t.settled| :: t.settled[i].id
  }

  /** Settlement `s` is the timeout rejection of an entry of `t` that had
      expired at `now`. */
  ghost predicate TimedOut(t: Transport, s: Settlement, now: int)
  {
    && s.id in ExpiredIds(t, now)
    && s.outcome == Rejected
    && s.response == CreateHttpTimeoutResponse(t, s.id, TimeoutMessage)
  }

  const TimeoutMessage: Json := JStr("Timed out.")

  /** How the cache of `t'` relates to that of `t` once the requests in
      `gone` have been rejected: the keys whose in-flight promise belonged to
      one of them are removed and every other key is as it was. */
  ghost predicate CacheAfterRejecting(t: Transport, t': Transport, gone: set<Id>)
  {
    && (forall k :: k in t'.cache <==>
          k in t.cache && !(t.cache[k].InFlight? && t.cache[k].handle in gone))
    && (forall k :: k in t'.cache ==> t'.cache[k] == t.cache[k])
  }

  /** The settlement log of `cur` partway through a sweep of `t` that has
      rejected the expired requests in `done`: the old log is its prefix and
      the rest holds one timeout rejection for each id in `done`. */
  ghost predicate SweepLog(t: Transport, cur: Transport, now: int, done: set<Id>)
  {
    && |cur.settled| == |t.settled| + |done|
    && cur.settled[..|t.settled|] == t.settled
    && SettledSince(cur, |t.settled|) == done
    && (forall i :: |t.settled| <= i < |cur.settled| ==> TimedOut(t, cur.settled[i], now))
  }

  /** What holds of state `cur` partway through a sweep of `t` that has
      rejected the expired requests in `done`. */
  ghost predicate SweepInvariant(t: Transport, cur: Transport, now: int, done: set<Id>)
  {
    && done <= ExpiredIds(t, now)
    && Valid(cur)
    && cur.requests == t.requests - done
    && cur.writes == t.writes && cur.settings == t.settings
    && SweepLog(t, cur, now, done)
    && CacheAfterRejecting(t, cur, done)
  }

  /** Appending a settlement for `id` to a log whose entries from `n` on
      settle `done` makes them settle `done + {id}`. */
  lemma SettledSinceStep(cur: Transport, next: Transport, n: nat, done: set<Id>, s: Settlement)
    requires n <= |cur.settled| && SettledSince(cur, n) == done
    requires next.settled == cur.settled + [s]
    ensures SettledSince(next, n) == done + {s.id}
  {
    forall x | x in SettledSince(next, n)
      ensures x in done + {s.id}
    {
      var i :| n <= i < |next.settled| && next.settled[i].id == x;
      if i < |cur.settled| {
        assert cur.settled[i] == next.settled[i];
        assert x in SettledSince(cur, n);
      }
    }
    forall x | x in done + {s.id}
      ensures x in SettledSince(next, n)
    {
      if x == s.id {
        assert next.settled[|cur.settled|].id == s.id;
      } else {
        assert x in SettledSince(cur, n);
        var i :| n <= i < |cur.settled| && cur.settled[i].id == x;
        assert next.settled[i] == cur.settled[i];
      }
    }
  }

  /** The settlement log after rejecting one more expired request `id`:
      its prefix is untouched and its new part records `done + {id}`. */
  lemma SweepLogStep(t: Transport, cur: Transport, next: Transport, now: int, done: set<Id>, id: Id)
    requires SweepLog(t, cur, now, done)
    requires id in ExpiredIds(t, now) && id !in done && id in cur.requests && cur.requests[id] == t.requests[id]
    requires next.settled == cur.settled + [Settlement(id, Rejected, CreateHttpTimeoutResponse(cur, id, TimeoutMessage))]
    ensures SweepLog(t, next, now, done + {id})
  {
    var n := |t.settled|;
    var s := Settlement(id, Rejected, CreateHttpTimeoutResponse(cur, id, TimeoutMessage));
    assert |done + {id}| == |done| + 1;
    assert next.settled[..n] == cur.settled[..n];
    SettledSinceStep(cur, next, n, done, s);
    assert TimedOut(t, s, now);
    forall i | n <= i < |next.settled|
      ensures TimedOut(t, next.settled[i], now)
    {
      if i < |cur.settled| {
        assert next.settled[i] == cur.settled[i];
      }
    }
  }

  /** The caches after rejecting one more expired request `id`. */
  lemma SweepCacheStep(t: Transport, cur: Transport, now: int, done: set<Id>, id: Id)
    requires Valid(cur) && CacheAfterRejecting(t, cur, done)
    requires id in cur.requests && id !in done
    ensures CacheAfterRejecting(t, ResolvePending(cur, CreateHttpTimeoutResponse(cur, id, TimeoutMessage)),
                                done + {id})
  {
  }

  /** One step of the sweep: rejecting one more expired request `id` keeps
      every invariant and extends the sweep's record by exactly that id. */
  lemma SweepStep(t: Transport, cur: Transport, now: int, done: set<Id>, id: Id)
    requires SweepInvariant(t, cur, now, done)
    requires id in ExpiredIds(t, now) && id !in done
    ensures id in cur.requests
    ensures SweepInvariant(t, ResolvePending(cur, CreateHttpTimeoutResponse(cur, id, TimeoutMessage)),
                           now, done + {id})
  {
    var r := CreateHttpTimeoutResponse(cur, id, TimeoutMessage);
    var next := ResolvePending(cur, r);
    ResolvePendingPreservesValid(cur, r);
    SweepLogStep(t, cur, next, now, done, id);
    SweepCacheStep(t, cur, now, done, id);
    assert next.requests == t.requests - (done + {id});
  }

  /** The loop's step: picking `id` from the ids still to reject. */
  lemma SweepNext(t: Transport, cur: Transport, now: int, expired: set<Id>, remaining: set<Id>, id: Id)
    requires expired == ExpiredIds(t, now) && remaining <= expired && id in remaining
    requires SweepInvariant(t, cur, now, expired - remaining)
    ensures id in cur.requests
    ensures SweepInvariant(t, ResolvePending(cur, CreateHttpTimeoutResponse(cur, id, TimeoutMessage)),
                           now, expired - (remaining - {id}))
  {
    SweepStep(t, cur, now, expired - remaining, id);
    assert (expired - remaining) + {id} == expired - (remaining - {id});
  }

  /** A sweep that has rejected nothing yet. */
  lemma SweepStart(t: Transport, now: int)
    requires Valid(t)
    ensures SweepInvariant(t, t, now, {})
  {
  }

  /** A sweep that has rejected every expired request. */
  lemma SweepFinish(t: Transport, cur: Transport, now: int)
    requires SweepInvariant(t, cur, now, ExpiredIds(t, now))
    ensures Valid(cur)
    ensures cur.requests == t.requests - ExpiredIds(t, now)
    ensures cur.writes == t.writes && cur.settings == t.settings
    ensures |cur.settled| == |t.settled| + |ExpiredIds(t, now)|
    ensures cur.settled[..|t.settled|] == t.settled
    ensures SettledSince(cur, |t.settled|) == ExpiredIds(t, now)
    ensures forall i :: |t.settled| <= i < |cur.settled| ==> TimedOut(t, cur.settled[i], now)
    ensures CacheAfterRejecting(t, cur, ExpiredIds(t, now))
  {
  }

  /** `runTimeoutCheck`: rejects, with a status-0 timeout envelope, exactly
      the pending requests whose deadline is set and strictly before `now`,
      in any order. Every other entry stays pending and unchanged; nothing is
      written; the caches drop the keys whose in-flight promise timed out. */
  method RunTimeoutCheck(t: Transport, now: int) returns (t': Transport)
    requires Valid(t)
    ensures Valid(t')
    ensures t'.requests == t.requests - ExpiredIds(t, now)
    ensures t'.writes == t.writes && t'.settings == t.settings
    ensures |t'.settled| == |t.settled| + |ExpiredIds(t, now)|
    ensures t'.settled[..|t.settled|] == t.settled
    ensures SettledSince(t', |t.settled|) == ExpiredIds(t, now)
    ensures forall i :: |t.settled| <= i < |t'.settled| ==> TimedOut(t, t'.settled[i], now)
    ensures CacheAfterRejecting(t, t', ExpiredIds(t, now))
  {
    var expired := ExpiredIds(t, now);
    var remaining := expired;
    t' := t;
    SweepStart(t, now);
    while remaining != {}
      invariant remaining <= expired
      invariant SweepInvariant(t, t', now, expired - remaining)
      decreases remaining
    {
      var id :| id in remaining;
      SweepNext(t, t', now, expired, remaining, id);
      t' := ResolvePending(t', CreateHttpTimeoutResponse(t', id, TimeoutMessage));
      remaining := remaining - {id};
    }
    assert expired - remaining == expired;
    SweepFinish(t, t', now);
  }
}
