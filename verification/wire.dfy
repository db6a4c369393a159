/** The message format on the socket. Requests go out as the request config
    object tagged with the request id; replies come back as arbitrary objects
    carrying the same id tag and, optionally, a status tag. */
module Wire {
  import opened Js
  import opened Requests

  /** Reserved property carrying the request id, in both directions. */
  const IdTag: string := "_howsId"

  /** Reserved property carrying the reply status. */
  const StatusTag: string := "_howsStatus"

  /** Properties of a request config that `RequestConfig` holds in fields of
      its own rather than in `other`. */
  const NamedProperties: set<string> := {"method", "url", "cache", "timeout"}

  /** The request config as a plain object, leaving out its `cache` property
      (a cache directive only matters to this side of the socket). */
  function ConfigObject(cfg: RequestConfig): map<string, Json>
  {
    var base := (cfg.other - NamedProperties)["method" := JStr(cfg.httpMethod)]["url" := JStr(cfg.url)];
    if cfg.timeout.Some? then base["timeout" := JNum(cfg.timeout.value)] else base
  }

  /** The object `PrimusTransport.transmit` writes for request `id`: a copy of
      the config without `cache`, with the id tag set. The caller's config is
      a value and is left as it was. */
  function Outbound(id: Id, cfg: RequestConfig): (m: Json)
    ensures m.JObj?
    ensures IdTag in m.fields && m.fields[IdTag] == JStr(id)
    ensures "cache" !in m.fields
    ensures "method" in m.fields && m.fields["method"] == JStr(cfg.httpMethod)
    ensures "url" in m.fields && m.fields["url"] == JStr(cfg.url)
    ensures "timeout" in m.fields <==> cfg.timeout.Some?
    ensures cfg.timeout.Some? ==> m.fields["timeout"] == JNum(cfg.timeout.value)
    ensures forall k :: k in cfg.other && k !in NamedProperties && k != IdTag ==>
              k in m.fields && m.fields[k] == cfg.other[k]
    ensures forall k :: k in m.fields ==> k == IdTag || k in NamedProperties || k in cfg.other
  {
    JObj(ConfigObject(cfg)[IdTag := JStr(id)])
  }

  /** The id the data handler reads from an inbound message: present when the
      message is an object whose id tag is truthy, coerced to a property key. */
  function TaggedId(msg: Json): (r: Option<Id>)
    ensures r.Some? <==> msg.JObj? && IdTag in msg.fields && Truthy(msg.fields[IdTag])
  {
    if msg.JObj? && IdTag in msg.fields && Truthy(msg.fields[IdTag])
    then Some(PropertyKey(msg.fields[IdTag]))
    else None
  }

  /** The status value the data handler passes on: the status tag when it is
      truthy, otherwise 200. */
  function RawStatus(fields: map<string, Json>): (s: Json)
    ensures Truthy(s)
    ensures StatusTag !in fields ==> s == JNum(200)
  {
    if StatusTag in fields && Truthy(fields[StatusTag]) then fields[StatusTag] else JNum(200)
  }

  /** The reply payload with both reserved tags removed. */
  function Untagged(fields: map<string, Json>): (p: map<string, Json>)
    ensures IdTag !in p && StatusTag !in p
    ensures forall k :: k in fields && k != IdTag && k != StatusTag ==> k in p && p[k] == fields[k]
    ensures p.Keys <= fields.Keys
  {
    fields - {IdTag, StatusTag}
  }

  /** The receiving end reads back exactly the id that was written, since a
      generated id is never the empty string. */
  lemma OutboundIdRoundTrip(id: Id, cfg: RequestConfig)
    requires id != ""
    ensures TaggedId(Outbound(id, cfg)) == Some(id)
  {
  }
}
