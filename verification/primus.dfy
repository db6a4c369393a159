/** The PrimusTransport's inbound side: the `data` listener that picks replies
    out of the socket's traffic, strips the reserved tags and resolves the
    matching pending request. */
module Primus {
  import opened Js
  import opened Requests
  import opened Wire
  import opened Transports

  /** What the listener does with one inbound message: nothing, throw, or
      settle a pending request. */
  datatype Delivery = Ignored | Threw(error: TransportError) | Delivered(next: Transport)

  /** The status a reply settles with: the status tag when it is a non-zero
      number, otherwise 200. */
  function ReplyStatus(fields: map<string, Json>): int
  {
    if StatusTag in fields && fields[StatusTag].JNum? && fields[StatusTag].n != 0
    then fields[StatusTag].n else 200
  }

  /** The listener as written. `typeof null === 'object'`, so a `null`
      message passes the first test and reading its id tag throws. */
  function OnDataAsWritten(t: Transport, msg: Json): (d: Delivery)
    ensures msg.JNull? ==> d == Threw(NotAnObject)
    ensures !msg.JNull? ==> d == OnData(t, msg)
  {
    if !IsObjectType(msg) then Ignored
    else if msg.JNull? then Threw(NotAnObject)
    else HandleTagged(t, msg)
  }

  /** The listener with `null` skipped like every other message that is not
      a reply: only an object with a truthy id tag is acted on. A reply for
      an id that is not pending throws and settles nothing. A reply for a
      pending id settles it with the untagged payload as data, the status
      tag (or 200), empty headers and the config the request was sent with. */
  function OnData(t: Transport, msg: Json): (d: Delivery)
    ensures TaggedId(msg).None? ==> d == Ignored
    ensures TaggedId(msg).Some? && TaggedId(msg).value !in t.requests ==>
              d == Threw(UnknownRequest(TaggedId(msg).value))
    ensures TaggedId(msg).Some? && TaggedId(msg).value in t.requests ==>
              var id := TaggedId(msg).value;
              var status := ReplyStatus(msg.fields);
              && d.Delivered?
              && d.next.requests == t.requests - {id}
              && d.next.writes == t.writes
              && d.next.settled == t.settled + [Settlement(id, Classify(status),
                   Response(id, JObj(Untagged(msg.fields)), status, map[], t.requests[id].config))]
              && d.next.settings == t.settings
              && d.next.hooks == t.hooks - {id}
              && (id !in t.hooks ==> d.next.cache == t.cache)
              && (id in t.hooks && IsSuccessStatus(status) ==>
                    d.next.cache == t.cache[t.hooks[id] := Snapshot(d.next.settled[|t.settled|].response)])
              && (id in t.hooks && !IsSuccessStatus(status) ==> d.next.cache == t.cache - {t.hooks[id]})
  {
    if !msg.JObj? then Ignored else HandleTagged(t, msg)
  }

  /** The part of the listener after the `typeof` test. */
  function HandleTagged(t: Transport, msg: Json): (d: Delivery)
    requires msg.JObj? || msg.JArr?
  {
    match TaggedId(msg)
    case None => Ignored
    case Some(id) =>
      var fields := msg.fields;
      if id !in t.requests then Threw(UnknownRequest(id))
      else
        var response := CreateHttpResponse(t, id, RawStatus(fields), JObj(Untagged(fields)));
        match ResolveResponse(t, response)
        case Success(next) => Delivered(next)
        case Failure(e) => Threw(e)
  }

  /** Handling a message keeps every invariant of the transport. */
  lemma OnDataPreservesValid(t: Transport, msg: Json)
    requires Valid(t)
    ensures OnData(t, msg).Delivered? ==> Valid(OnData(t, msg).next)
  {
    if msg.JObj? && TaggedId(msg).Some? && TaggedId(msg).value in t.requests {
      var id := TaggedId(msg).value;
      ResolvePendingPreservesValid(t, CreateHttpResponse(t, id, RawStatus(msg.fields), JObj(Untagged(msg.fields))));
    }
  }

  /** The message the as-written listener mishandles: `null` carries no id
      tag, yet it makes the listener throw instead of being skipped. */
  lemma NullMessageThrows(t: Transport)
    ensures TaggedId(JNull).None?
    ensures OnDataAsWritten(t, JNull) == Threw(NotAnObject)
    ensures OnData(t, JNull) == Ignored
  {
  }
}
