/**
 * The MessageEnvelope every component exchanges, and its Builder. The
 * envelope is a mutable object: setters change one field in place.
 */
module Envelope {
  import opened Wrappers
  import opened Json

  /** A point in time (java.time.Instant), as a count of clock ticks. */
  type Instant = int

  /** The seven fields of an envelope, as a value. */
  datatype Env = Env(
    msgType: Option<string>,
    senderId: Option<string>,
    recipientId: Option<string>,
    correlationId: Option<string>,
    payload: Value,
    signature: Option<string>,
    timestamp: Option<Instant>)

  /** An envelope with every field null. */
  const EmptyEnv := Env(None, None, None, None, Null, None, None)

  /**
   * The 4-argument constructor: the given fields, a fresh correlation id
   * (UUID.randomUUID) and the current time (Instant.now), no signature.
   */
  function NewEnv(msgType: Option<string>, senderId: Option<string>, recipientId: Option<string>,
                  payload: Value, freshId: string, now: Instant): (e: Env)
    ensures e.msgType == msgType && e.senderId == senderId && e.recipientId == recipientId
    ensures e.payload == payload
    ensures e.correlationId == Some(freshId) && e.timestamp == Some(now)
    ensures e.signature == None
  {
    Env(msgType, senderId, recipientId, Some(freshId), payload, None, Some(now))
  }

  class MessageEnvelope {
    var msgType: Option<string>
    var senderId: Option<string>
    var recipientId: Option<string>
    var correlationId: Option<string>
    var payload: Value
    var signature: Option<string>
    var timestamp: Option<Instant>

    function Fields(): Env
      reads this
    {
      Env(msgType, senderId, recipientId, correlationId, payload, signature, timestamp)
    }

    /** The no-argument constructor used by Jackson. */
    constructor Empty()
      ensures Fields() == EmptyEnv
    {
      msgType, senderId, recipientId, correlationId := None, None, None, None;
      payload, signature, timestamp := Null, None, None;
    }

    constructor (msgType: Option<string>, senderId: Option<string>, recipientId: Option<string>,
                 payload: Value, freshId: string, now: Instant)
      ensures Fields() == NewEnv(msgType, senderId, recipientId, payload, freshId, now)
    {
      this.msgType, this.senderId, this.recipientId := msgType, senderId, recipientId;
      this.payload := payload;
      this.correlationId := Some(freshId);
      this.timestamp := Some(now);
      this.signature := None;
    }

    method SetType(t: Option<string>)
      modifies this
      ensures Fields() == old(Fields()).(msgType := t)
    {
      msgType := t;
    }

    method SetSenderId(s: Option<string>)
      modifies this
      ensures Fields() == old(Fields()).(senderId := s)
    {
      senderId := s;
    }

    method SetRecipientId(r: Option<string>)
      modifies this
      ensures Fields() == old(Fields()).(recipientId := r)
    {
      recipientId := r;
    }

    method SetCorrelationId(c: Option<string>)
      modifies this
      ensures Fields() == old(Fields()).(correlationId := c)
    {
      correlationId := c;
    }

    method SetPayload(p: Value)
      modifies this
      ensures Fields() == old(Fields()).(payload := p)
    {
      payload := p;
    }

    method SetSignature(s: Option<string>)
      modifies this
      ensures Fields() == old(Fields()).(signature := s)
    {
      signature := s;
    }

    method SetTimestamp(t: Option<Instant>)
      modifies this
      ensures Fields() == old(Fields()).(timestamp := t)
    {
      timestamp := t;
    }
  }

  /**
   * MessageEnvelope.Builder: correlation id and timestamp start out fresh;
   * every other field starts null. Each setter returns the builder itself.
   */
  class Builder {
    var msgType: Option<string>
    var senderId: Option<string>
    var recipientId: Option<string>
    var correlationId: Option<string>
    var payload: Value
    var signature: Option<string>
    var timestamp: Option<Instant>

    function Fields(): Env
      reads this
    {
      Env(msgType, senderId, recipientId, correlationId, payload, signature, timestamp)
    }

    constructor (freshId: string, now: Instant)
      ensures Fields() == EmptyEnv.(correlationId := Some(freshId), timestamp := Some(now))
    {
      msgType, senderId, recipientId, signature := None, None, None, None;
      payload := Null;
      correlationId := Some(freshId);
      timestamp := Some(now);
    }

    method Type(t: Option<string>) returns (b: Builder)
      modifies this
      ensures b == this && Fields() == old(Fields()).(msgType := t)
    {
      msgType := t;
      b := this;
    }

    method SenderId(s: Option<string>) returns (b: Builder)
      modifies this
      ensures b == this && Fields() == old(Fields()).(senderId := s)
    {
      senderId := s;
      b := this;
    }

    method RecipientId(r: Option<string>) returns (b: Builder)
      modifies this
      ensures b == this && Fields() == old(Fields()).(recipientId := r)
    {
      recipientId := r;
      b := this;
    }

    method CorrelationId(c: Option<string>) returns (b: Builder)
      modifies this
      ensures b == this && Fields() == old(Fields()).(correlationId := c)
    {
      correlationId := c;
      b := this;
    }

    method Payload(p: Value) returns (b: Builder)
      modifies this
      ensures b == this && Fields() == old(Fields()).(payload := p)
    {
      payload := p;
      b := this;
    }

    method Signature(s: Option<string>) returns (b: Builder)
      modifies this
      ensures b == this && Fields() == old(Fields()).(signature := s)
    {
      signature := s;
      b := this;
    }

    method Timestamp(t: Option<Instant>) returns (b: Builder)
      modifies this
      ensures b == this && Fields() == old(Fields()).(timestamp := t)
    {
      timestamp := t;
      b := this;
    }

    /** A new envelope holding a copy of all seven builder fields. */
    method Build() returns (e: MessageEnvelope)
      ensures fresh(e) && e.Fields() == Fields()
    {
      e := new MessageEnvelope.Empty();
      e.SetType(msgType);
      e.SetSenderId(senderId);
      e.SetRecipientId(recipientId);
      e.SetCorrelationId(correlationId);
      e.SetPayload(payload);
      e.SetSignature(signature);
      e.SetTimestamp(timestamp);
    }
  }

  /** A builder whose correlation id and timestamp were never set keeps the fresh ones. */
  method BuildWithDefaults(msgType: Option<string>, senderId: Option<string>, recipientId: Option<string>,
                           payload: Value, freshId: string, now: Instant) returns (e: MessageEnvelope)
    ensures fresh(e)
    ensures e.Fields() == NewEnv(msgType, senderId, recipientId, payload, freshId, now)
  {
    var b := new Builder(freshId, now);
    var b1 := b.Type(msgType);
    var b2 := b1.SenderId(senderId);
    var b3 := b2.RecipientId(recipientId);
    var b4 := b3.Payload(payload);
    e := b4.Build();
  }
}
