/** Properties that span several operations of the transport: the round trip
    through the socket, single-flight GETs, what the cache does after a
    cached request settles, the race between a late reply and the sweep, and
    the timeout path end to end. */
module Scenarios {
  import opened Js
  import opened Requests
  import opened Wire
  import opened Transports
  import opened Primus

  /** A reply as the far end writes it: the payload tagged with the request
      id and a status. */
  function Reply(id: Id, status: int, payload: map<string, Json>): (m: Json)
    ensures TaggedId(m) == (if id == "" then None else Some(id))
  {
    JObj(payload[IdTag := JStr(id)][StatusTag := JNum(status)])
  }

  /** The status a reply tagged with `status` settles with. */
  function EffectiveStatus(status: int): int
  {
    if status != 0 then status else 200
  }

  lemma ReplyUntagged(id: Id, status: int, payload: map<string, Json>)
    ensures Untagged(Reply(id, status, payload).fields) == payload - {IdTag, StatusTag}
    ensures ReplyStatus(Reply(id, status, payload).fields) == EffectiveStatus(status)
  {
  }

  /* ---------------------------------------------------------------------
     Round trip
     --------------------------------------------------------------------- */

  /** A request sent without the cache writes one object tagged with its id;
      echoing that id back settles the same request, once, with the untagged
      payload as data, empty headers and the config it was sent with, and
      leaves the table as it was before the send. */
  lemma EchoSettlesSameRequest(t: Transport, cfg: RequestConfig, id: Id, now: int,
                               status: int, payload: map<string, Json>)
    requires Fresh(t, id) && !IsCacheable(cfg)
    ensures var s := Send(t, cfg, id, now);
      var d := OnData(s.next, Reply(id, status, payload));
      var st := EffectiveStatus(status);
      && s.handle == id
      && s.next.writes == t.writes + [Outbound(id, cfg)]
      && TaggedId(Outbound(id, cfg)) == Some(id)
      && d.Delivered?
      && d.next.requests == t.requests
      && d.next.writes == s.next.writes
      && d.next.settled == t.settled +
           [Settlement(id, Classify(st), Response(id, JObj(payload - {IdTag, StatusTag}), st, map[], cfg))]
  {
    var s := Send(t, cfg, id, now);
    ReplyUntagged(id, status, payload);
    OutboundIdRoundTrip(id, cfg);
    assert s.next.requests - {id} == t.requests;
  }

  /* ---------------------------------------------------------------------
     Single flight
     --------------------------------------------------------------------- */

  /** The ids are pairwise distinct and none has been seen by `t`. */
  ghost predicate AllFresh(t: Transport, ids: seq<Id>)
  {
    && (forall i :: 0 <= i < |ids| ==> Fresh(t, ids[i]))
    && (forall i, j :: 0 <= i < j < |ids| ==> ids[i] != ids[j])
  }

  /** A send consumes at most its own id: every other unseen id stays unseen. */
  lemma SendKeepsRestFresh(t: Transport, cfg: RequestConfig, ids: seq<Id>, now: int)
    requires |ids| > 0 && AllFresh(t, ids)
    ensures AllFresh(Send(t, cfg, ids[0], now).next, ids[1..])
  {
  }

  datatype Batch = Batch(next: Transport, handles: seq<Id>)

  /** The same request sent once per id in `ids`, one after another, with
      no reply in between: the promises the callers get, in order. */
  function SendEach(t: Transport, cfg: RequestConfig, ids: seq<Id>, now: int): (b: Batch)
    requires AllFresh(t, ids)
    ensures |b.handles| == |ids|
    decreases |ids|
  {
    if |ids| == 0 then Batch(t, [])
    else
      var s := Send(t, cfg, ids[0], now);
      SendKeepsRestFresh(t, cfg, ids, now);
      var rest := SendEach(s.next, cfg, ids[1..], now);
      Batch(rest.next, [s.handle] + rest.handles)
  }

  /** While a cacheable GET is in flight, further GETs of the same URL get
      its promise and change nothing. */
  lemma {:induction false} InFlightAbsorbs(t: Transport, cfg: RequestConfig, ids: seq<Id>, now: int, h: Id)
    requires AllFresh(t, ids)
    requires IsCacheable(cfg) && KeyOf(cfg) in t.cache && t.cache[KeyOf(cfg)] == InFlight(h)
    ensures SendEach(t, cfg, ids, now).next == t
    ensures forall i :: 0 <= i < |ids| ==> SendEach(t, cfg, ids, now).handles[i] == h
    decreases |ids|
  {
    if |ids| > 0 {
      SendKeepsRestFresh(t, cfg, ids, now);
      InFlightAbsorbs(t, cfg, ids[1..], now, h);
    }
  }

  /** N cacheable GETs of an uncached URL cause exactly one transmit and one
      new pending request, and every caller gets the same promise. */
  lemma SingleFlight(t: Transport, cfg: RequestConfig, ids: seq<Id>, now: int)
    requires |ids| > 0 && AllFresh(t, ids)
    requires IsCacheable(cfg) && KeyOf(cfg) !in t.cache
    ensures var b := SendEach(t, cfg, ids, now);
      && b.next.writes == t.writes + [Outbound(ids[0], cfg)]
      && b.next.requests == t.requests[ids[0] := Pending(cfg, Deadline(t.settings.timeout, cfg, now))]
      && b.next.settled == t.settled
      && KeyOf(cfg) in b.next.cache && b.next.cache[KeyOf(cfg)] == InFlight(ids[0])
      && (forall i :: 0 <= i < |ids| ==> b.handles[i] == ids[0])
  {
    var s := Send(t, cfg, ids[0], now);
    SendKeepsRestFresh(t, cfg, ids, now);
    InFlightAbsorbs(s.next, cfg, ids[1..], now, ids[0]);
  }

  /* ---------------------------------------------------------------------
     The cache after settlement
     --------------------------------------------------------------------- */

  /** A cacheable GET that fails leaves nothing under its URL, so the next
      GET of that URL is transmitted again. */
  lemma FailedGetIsRetried(t: Transport, cfg: RequestConfig, a: Id, b: Id, now: int, later: int,
                           status: int, payload: map<string, Json>)
    requires Valid(t) && Fresh(t, a) && Fresh(t, b) && a != b
    requires IsCacheable(cfg) && KeyOf(cfg) !in t.cache
    requires !IsSuccessStatus(EffectiveStatus(status))
    ensures var first := Send(t, cfg, a, now).next;
      var d := OnData(first, Reply(a, status, payload));
      && d.Delivered?
      && KeyOf(cfg) !in d.next.cache
      && Fresh(d.next, b)
      && Send(d.next, cfg, b, later).next.writes == d.next.writes + [Outbound(b, cfg)]
  {
  }

  /** A cacheable GET that succeeds leaves a snapshot of its response under
      its URL; the next GET of that URL is answered from it: resolved at once
      with the snapshot re-tagged with the new id, nothing transmitted, and
      the table as it was. */
  lemma SuccessfulGetIsReplayed(t: Transport, cfg: RequestConfig, a: Id, b: Id, now: int, later: int,
                                status: int, payload: map<string, Json>)
    requires Valid(t) && Fresh(t, a) && Fresh(t, b) && a != b
    requires IsCacheable(cfg) && KeyOf(cfg) !in t.cache
    requires IsSuccessStatus(EffectiveStatus(status))
    ensures var first := Send(t, cfg, a, now).next;
      var d := OnData(first, Reply(a, status, payload));
      var response := Response(a, JObj(payload - {IdTag, StatusTag}), EffectiveStatus(status), map[], cfg);
      && d.Delivered?
      && KeyOf(cfg) in d.next.cache && d.next.cache[KeyOf(cfg)] == Snapshot(response)
      && Fresh(d.next, b)
      && var replay := Send(d.next, cfg, b, later);
         && replay.handle == b
         && replay.next.writes == d.next.writes
         && replay.next.requests == d.next.requests
         && replay.next.settled == d.next.settled + [Settlement(b, Resolved, response.(id := b))]
  {
    var first := Send(t, cfg, a, now).next;
    ReplyUntagged(a, status, payload);
    var d := OnData(first, Reply(a, status, payload));
    forall j | 0 <= j < |d.next.settled|
      ensures d.next.settled[j].id != b
    {
      if j < |t.settled| {
        assert d.next.settled[j] == t.settled[j];
      }
    }
  }

  /* ---------------------------------------------------------------------
     Races and timeouts
     --------------------------------------------------------------------- */

  /** A reply that arrives after its request was settled (by an earlier
      reply or by the sweep) finds no pending entry: it throws and settles
      nothing a second time. */
  lemma LateReplyIsRefused(t: Transport, id: Id, status: int, payload: map<string, Json>)
    requires Valid(t) && id != "" && WasSettled(t, id)
    ensures OnData(t, Reply(id, status, payload)) == Threw(UnknownRequest(id))
  {
  }

  /** With a 50 ms default timeout, a request sent at `now` survives a sweep
      at `now + 50` (the deadline must be strictly past) and is rejected with
      the status-0 timeout envelope by a sweep at `now + 60`. */
  method SendThenSweep(cfg: RequestConfig, id: Id, now: int) returns (early: Transport, late: Transport)
    requires !IsCacheable(cfg) && cfg.timeout.None? && id != "" && now >= 0
    ensures id in early.requests && early.settled == []
    ensures late.requests == map[]
    ensures late.settled == [Settlement(id, Rejected, Response(id, TimeoutMessage, 0, map[], cfg))]
  {
    var t := NewTransport(Options(Some(50), Some(10)));
    var s := Send(t, cfg, id, now);
    SendPreservesValid(t, cfg, id, now);
    assert s.next.requests == map[id := Pending(cfg, Some(now + 50))];
    assert ExpiredIds(s.next, now + 50) == {};
    early := RunTimeoutCheck(s.next, now + 50);
    assert ExpiredIds(s.next, now + 60) == {id};
    late := RunTimeoutCheck(s.next, now + 60);
    assert TimedOut(s.next, late.settled[0], now + 60);
  }

  /** Three pending entries: "a" without a deadline (`timeoutAfter` 0),
      "b" due a second from now and "c" overdue by a second. A sweep at
      `now` rejects "c" alone, with the status-0 envelope, and leaves the
      entries of "a" and "b" exactly as they were. */
  method TimeoutScenario(cfgA: RequestConfig, cfgB: RequestConfig, cfgC: RequestConfig, now: int)
    returns (t: Transport, swept: Transport)
    requires now > 1000
    ensures t.requests == map["a" := Pending(cfgA, Some(0)), "b" := Pending(cfgB, Some(now + 1000)),
                              "c" := Pending(cfgC, Some(now - 1000))]
    ensures swept.requests == map["a" := t.requests["a"], "b" := t.requests["b"]]
    ensures swept.settled == [Settlement("c", Rejected, Response("c", TimeoutMessage, 0, map[], cfgC))]
  {
    var a := Pending(cfgA, Some(0));
    var b := Pending(cfgB, Some(now + 1000));
    var c := Pending(cfgC, Some(now - 1000));
    t := Transport(Settings(DefaultTimeout, DefaultTimeoutCheckInterval),
                   map["a" := a, "b" := b, "c" := c], map[], map[], [], []);
    assert !IsExpired(a, now) && !IsExpired(b, now) && IsExpired(c, now);
    assert ExpiredIds(t, now) == {"c"};
    swept := RunTimeoutCheck(t, now);
    assert TimedOut(t, swept.settled[0], now);
    assert t.requests - {"c"} == map["a" := a, "b" := b];
  }
}
