/** The order.created event: how it is built from an order and when a consumer accepts it.
    Its JSON form is taken as an injective encoding. */
module OrderEvents {
  import opened Text

  const EVENT_TYPE: string := "order.created"
  const VERSION: int := 1
  const SOURCE_NORMAL: string := "NORMAL"
  const SOURCE_SECKILL: string := "SECKILL"
  const EVENT_PREFIX: string := "order.created.v1:"

  datatype OrderCreated = OrderCreated(
    eventId: string, eventType: string, schemaVersion: int, orderNo: string,
    user: nat, source: string, total: int, createdAtMs: int)

  datatype EventError = UnsupportedVersion | InvalidEvent

  /** One order has one order.created event, so its identifier is a function of the order number. */
  function StableEventId(orderNo: string): (r: string) {
    EVENT_PREFIX + TrimSpace(orderNo)
  }

  /** ... and an injective one: the event identifier names the order. */
  lemma EventIdNamesOrder(a: string, b: string)
    requires StableEventId(a) == StableEventId(b)
    ensures TrimSpace(a) == TrimSpace(b)
  {
    assert StableEventId(a)[|EVENT_PREFIX|..] == TrimSpace(a);
    assert StableEventId(b)[|EVENT_PREFIX|..] == TrimSpace(b);
  }

  function Validate(e: OrderCreated): (r: Option<EventError>) {
    if e.eventType != EVENT_TYPE || e.schemaVersion != VERSION then Some(UnsupportedVersion)
    else if TrimSpace(e.eventId) == "" || TrimSpace(e.orderNo) == "" || e.eventId != StableEventId(e.orderNo)
            || e.user == 0 || e.total < 0 || e.createdAtMs <= 0 then Some(InvalidEvent)
    else if e.source != SOURCE_NORMAL && e.source != SOURCE_SECKILL then Some(InvalidEvent)
    else None
  }

  function SourceOf(orderNo: string): (r: string)
    ensures r == SOURCE_NORMAL || r == SOURCE_SECKILL
  {
    if |orderNo| > 0 && orderNo[0] == 'T' then SOURCE_SECKILL else SOURCE_NORMAL
  }

  /** The event of a committed order; refused when the order could not be described by a valid event. */
  function NewOrderCreated(orderNo: string, user: nat, total: int, createdAtMs: int, source: string): (r: Option<OrderCreated>)
    ensures r.Some? ==> r.value.eventId == StableEventId(orderNo)
  {
    var e := OrderCreated(StableEventId(orderNo), EVENT_TYPE, VERSION, TrimSpace(orderNo), user, source, total, createdAtMs);
    if Validate(e).None? then Some(e) else None
  }

  /** A record value: the encoding of an event, or bytes that are no such encoding. */
  datatype Payload = Encoded(event: OrderCreated) | Junk(bytes: string)

  datatype DecodedEvent = Accepted(event: OrderCreated) | Rejected(error: EventError)

  function Decode(p: Payload): (r: DecodedEvent)
    ensures r.Accepted? ==> p == Encoded(r.event)
  {
    match p
    case Junk(_) => Rejected(InvalidEvent)
    case Encoded(e) => if Validate(e).Some? then Rejected(Validate(e).value) else Accepted(e)
  }

  /** Every event a service builds is accepted unchanged by every consumer. */
  lemma BuiltEventDecodes(orderNo: string, user: nat, total: int, createdAtMs: int, source: string)
    requires NewOrderCreated(orderNo, user, total, createdAtMs, source).Some?
    ensures var e := NewOrderCreated(orderNo, user, total, createdAtMs, source).value; Decode(Encoded(e)) == Accepted(e)
  {
  }

  /** What a valid event is: of this type and version, named after its order, with a user, an amount, a time and a
      known source. */
  lemma ValidExactly(e: OrderCreated)
    ensures Validate(e).None? <==>
              && e.eventType == "order.created" && e.schemaVersion == 1 && TrimSpace(e.orderNo) != ""
              && e.eventId == "order.created.v1:" + TrimSpace(e.orderNo)
              && 0 < e.user && 0 <= e.total && 0 < e.createdAtMs && (e.source == "NORMAL" || e.source == "SECKILL")
    ensures Validate(e) == Some(UnsupportedVersion) <==> e.eventType != "order.created" || e.schemaVersion != 1
  {
    if TrimSpace(e.orderNo) != "" && e.eventId == StableEventId(e.orderNo) {
      Trims(e.orderNo);
      var id := e.eventId;
      assert id[0] == 'o' && id[|id| - 1] == TrimSpace(e.orderNo)[|TrimSpace(e.orderNo)| - 1];
      assert Trimmed(id);
      Trims(id);
    }
    hide TrimSpace;
    hide Trimmed;
  }
}
