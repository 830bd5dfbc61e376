/** Outbox events, Kafka records, the gift envelope they carry and its validation on the consuming side. */
module Events {
  import opened Basics

  const EVENT_TYPE_GIFT_SENT := "gift.sent"

  /** The message a viewer receives; JSON encoding is taken to be injective on these fields. */
  datatype Gift = Gift(
    orderNo: string, userId: int, anchorId: int, giftId: int, giftName: string,
    count: int, unitPrice: int, totalAmount: int)

  /** Absent: no payload bytes. Foreign: JSON that does not decode into a gift. */
  datatype Payload = Absent | Foreign | OfGift(gift: Gift)

  datatype Envelope = Envelope(eventId: string, eventType: string, roomId: int, stamped: bool, payload: Payload)

  /** Null is a record without a value (a tombstone), Raw is anything that is not an envelope. */
  datatype Value = Null | Raw(text: string) | Wire(envelope: Envelope)

  datatype Record = Record(key: Option<string>, value: Value)

  datatype OutboxEvent = OutboxEvent(eventId: string, aggregateId: string, topic: string, key: string, value: Value)

  /** What ProduceSync sends for an outbox row. */
  function ProducedRecord(event: OutboxEvent): Record {
    Record(Some(event.key), event.value)
  }

  predicate IsSpace(c: char) {
    || c in {' ', '\t', '\n', '\r', '\U{0b}', '\U{0c}', '\U{85}', '\U{a0}', '\U{1680}'}
    || '\U{2000}' <= c <= '\U{200a}'
    || c in {'\U{2028}', '\U{2029}', '\U{202f}', '\U{205f}', '\U{3000}'}
  }

  /** strings.TrimSpace(s) == "" */
  predicate Blank(s: string) {
    forall i :: 0 <= i < |s| ==> IsSpace(s[i])
  }

  predicate ValidRoomEnvelope(e: Envelope) {
    !Blank(e.eventId) && !Blank(e.eventType) && e.roomId > 0 && e.stamped && e.payload != Absent
  }

  /** The event id under which the gift consumer deduplicates a record; None is a permanent error. */
  function Admitted(rec: Record): Option<string> {
    if rec.value.Wire? && ValidRoomEnvelope(rec.value.envelope) && rec.value.envelope.eventType == EVENT_TYPE_GIFT_SENT
    then Some(rec.value.envelope.eventId)
    else None
  }

  predicate ValidGift(g: Gift) {
    && g.orderNo != "" && g.userId > 0 && g.anchorId > 0 && g.giftId > 0 && g.giftName != ""
    && g.count > 0 && g.unitPrice >= 0 && g.totalAmount >= 0
  }

  /** decodeRealtimeGiftPayload. */
  function DecodeGift(rec: Record): Option<Gift> {
    if rec.value.Wire? && rec.value.envelope.payload.OfGift? && ValidGift(rec.value.envelope.payload.gift)
    then Some(rec.value.envelope.payload.gift)
    else None
  }

  /** One message on a room stream. */
  datatype Push = Push(eventId: string, roomId: int, gift: Gift)

  /** The handler publishes exactly the records that are admitted and decode. */
  predicate Publishable(rec: Record) {
    Admitted(rec).Some? && DecodeGift(rec).Some?
  }

  function PushOf(rec: Record): Push
    requires Publishable(rec)
  {
    Push(rec.value.envelope.eventId, rec.value.envelope.roomId, rec.value.envelope.payload.gift)
  }
}
