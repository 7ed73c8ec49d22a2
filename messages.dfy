/**
 * MessageEntity: the row the kernel stores for every routed envelope.
 */
module Messages {
  import opened Wrappers
  import opened Json
  import opened Envelope
  import Text

  datatype MessageRow = MessageRow(
    msgType: Option<string>,
    senderId: Option<string>,
    recipientId: Option<string>,
    correlationId: Option<string>,
    payload: string,
    signature: Option<string>,
    timestamp: Option<Instant>,
    status: string,
    createdAt: Instant)

  const Pending := "PENDING"
  const Delivered := "DELIVERED"

  /** payload.toString() on a null payload throws. */
  datatype EntityError = NullPayload

  /**
   * fromEnvelope: copy the six header fields, store the payload's text, mark
   * it PENDING and stamp it with the current time.
   */
  function FromEnvelope(env: Env, now: Instant): (r: Result<MessageRow, EntityError>)
    ensures r.Failure? <==> env.payload == Null
    ensures r.Success? ==>
              r.value.msgType == env.msgType && r.value.senderId == env.senderId &&
              r.value.recipientId == env.recipientId && r.value.correlationId == env.correlationId &&
              r.value.signature == env.signature && r.value.timestamp == env.timestamp &&
              r.value.payload == ToText(env.payload) &&
              r.value.status == Pending && r.value.createdAt == now
  {
    if env.payload == Null then Failure(NullPayload)
    else Success(MessageRow(env.msgType, env.senderId, env.recipientId, env.correlationId,
                            ToText(env.payload), env.signature, env.timestamp, Pending, now))
  }

  /**
   * The stored row keeps everything but the payload's structure: two
   * envelopes stored at the same time with the same row agree on every
   * header field, and their payloads print alike.
   */
  lemma RowDeterminesHeaders(e1: Env, e2: Env, now: Instant)
    requires FromEnvelope(e1, now).Success? && FromEnvelope(e1, now) == FromEnvelope(e2, now)
    ensures e1.(payload := e2.payload) == e2
    ensures ToText(e1.payload) == ToText(e2.payload)
  {
  }

  /** Only the payload's text is kept: distinct string and integer payloads can give the same row. */
  lemma PayloadTextLosesType(now: Instant)
    ensures var a := Env(None, None, None, None, Str("7"), None, None);
            var b := Env(None, None, None, None, Num(Integral(7)), None, None);
            a != b && FromEnvelope(a, now) == FromEnvelope(b, now)
  {
    assert ToText(Num(Integral(7))) == "7" by {
      assert Text.IntToString(7) == "7";
    }
  }
}
