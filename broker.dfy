/** broker/message.go, broker/payload.go and broker/pubsub_broker.go: the
    messages, the topic routing with its acknowledgement policy, and
    publishing. The Pub/Sub service is a set of existing topics and an
    append-only log of what was published; the JSON encoding is taken to give
    back what it encoded, and the receive loop's goroutine is left out. */
module Broker {
  import opened Wrappers
  import opened Uuid

  /** The five lifecycle topics. */
  const Creation := "creation"
  const Modification := "modification"
  const Validation := "validation"
  const Authorization := "authorization"
  const CertRequest := "cert_request"

  /** The only topic `setupPubSub` creates, and the one the subscription reads. */
  const IsardTopic := "isard-topic"

  /** What a message carries. `MessagePayload` is a whole message passed as the
      payload, as the processor and the API do when they hand a message they
      built to Publish, which builds another around it. */
  datatype Payload =
    | CreateDomainPayload(accountId: UUID, accountToken: UUID, domainName: string, challengeType: string)
    | DomainPayload(accountId: UUID, domainName: string)
    | MessagePayload(message: Message)
    | OpaquePayload(text: string)

  datatype Message = Message(jobId: UUID, topic: string, payload: Payload)

  /** `NewMessageWithID`: no topic yet. */
  function NewMessageWithId(jobId: UUID, payload: Payload): (m: Message)
    ensures m.jobId == jobId && m.payload == payload && m.topic == []
  {
    Message(jobId, [], payload)
  }

  /** One message sent to the service: the topic it went to and what it held. */
  datatype Publication = Publication(topicName: string, message: Message)

  /** The processor entry points. */
  datatype Handler = CreateDomain | ModifyDomain | ValidateDomain | AuthorizeDomain | RequestDomainCertificate

  /** The topic switch of the receive callback. */
  function Route(topic: string): (r: Option<Handler>)
    ensures r.None? <==> topic !in {Creation, Modification, Validation, Authorization, CertRequest}
  {
    if topic == Creation then Some(CreateDomain)
    else if topic == Modification then Some(ModifyDomain)
    else if topic == Validation then Some(ValidateDomain)
    else if topic == Authorization then Some(AuthorizeDomain)
    else if topic == CertRequest then Some(RequestDomainCertificate)
    else None
  }

  /** The topic each entry point serves. */
  function HandlerTopic(h: Handler): string
  {
    match h
    case CreateDomain => Creation
    case ModifyDomain => Modification
    case ValidateDomain => Validation
    case AuthorizeDomain => Authorization
    case RequestDomainCertificate => CertRequest
  }

  /** Each topic dispatches to exactly one handler, and each handler is
      reached from exactly one topic. */
  lemma RouteInverse(topic: string, h: Handler)
    ensures Route(HandlerTopic(h)) == Some(h)
    ensures Route(topic) == Some(h) ==> topic == HandlerTopic(h)
  {
  }

  datatype Ack = Acked | Nacked

  /** The acknowledgement decision: undecodable data is acked and dropped; a
      decoded message whose topic routes nowhere is acked; otherwise a
      handler failure is nacked (redelivered) and a success acked. */
  function Settle(decoded: Result<Message>, outcome: Outcome): (r: Ack)
    ensures r == Nacked <==> decoded.Ok? && Route(decoded.value.topic).Some? && outcome.Fail?
  {
    if decoded.Err? then Acked
    else if Route(decoded.value.topic).None? then Acked
    else if outcome.Fail? then Nacked
    else Acked
  }

  /** Only a handler that ran and failed leads to redelivery: undecodable
      data and unknown topics never do, whatever the handler would have said. */
  lemma SettleNeverNacksUnrouted(decoded: Result<Message>, outcome: Outcome, other: Outcome)
    requires decoded.Err? || Route(decoded.value.topic).None?
    ensures Settle(decoded, outcome) == Settle(decoded, other) == Acked
  {
  }

  const ErrTopicNotFound := "rpc error: code = NotFound desc = Resource not found"

  /** What `Publish` reports for the message it builds: a marshalling error,
      then NotFound for a missing "isard-topic", then the service's error. */
  function PublishOutcome(topics: set<string>, publishError: Option<string>,
                          marshalError: Message -> Option<string>, m: Message): (r: Outcome)
    ensures r.Pass? <==> marshalError(m).None? && IsardTopic in topics && publishError.None?
    ensures marshalError(m).Some? ==> r == Fail(marshalError(m).value)
    ensures marshalError(m).None? && IsardTopic !in topics ==> r == Fail(ErrTopicNotFound)
  {
    if marshalError(m).Some? then Fail(marshalError(m).value)
    else if IsardTopic !in topics then Fail(ErrTopicNotFound)
    else if publishError.Some? then Fail(publishError.value)
    else Pass
  }

  /** The Pub/Sub service as the broker sees it. */
  class PubSubBroker {
    /** Topics that exist on the service. */
    var topics: set<string>
    /** Everything the service accepted, in order. */
    var sent: seq<Publication>
    /** The error a publish reports while the service cannot be reached. */
    var publishError: Option<string>

    /** `NewPubSubBroker` after `setupPubSub`: the one topic exists, nothing sent. */
    constructor ()
      ensures topics == {IsardTopic} && sent == [] && publishError == None
    {
      topics, sent, publishError := {IsardTopic}, [], None;
    }

    /** What the service does with a message sent to a topic: appends it when
        the topic exists and the service is reachable. */
    method Send(topicName: string, m: Message) returns (r: Outcome)
      modifies this
      ensures topics == old(topics) && publishError == old(publishError)
      ensures r.Pass? <==> topicName in topics && publishError.None?
      ensures r.Pass? ==> sent == old(sent) + [Publication(topicName, m)]
      ensures r.Fail? ==> sent == old(sent)
      ensures topicName !in topics ==> r == Fail(ErrTopicNotFound)
      ensures topicName in topics && publishError.Some? ==> r == Fail(publishError.value)
    {
      if topicName !in topics {
        return Fail(ErrTopicNotFound);
      }
      if publishError.Some? {
        return Fail(publishError.value);
      }
      sent := sent + [Publication(topicName, m)];
      return Pass;
    }

    /** `Publish` as pubsub_broker.go:53-69 writes it: the new message is
        stamped with the topic and sent to the Pub/Sub topic OF THE SAME NAME.
        `marshalError` is what `json.Marshal` reports for a message, if
        anything. */
    method PublishAsWritten(topic: string, payload: Payload, jobId: UUID, marshalError: Message -> Option<string>)
      returns (r: Outcome)
      modifies this
      ensures topics == old(topics) && publishError == old(publishError)
      ensures marshalError(Message(jobId, topic, payload)).Some? ==>
        r == Fail(marshalError(Message(jobId, topic, payload)).value) && sent == old(sent)
      ensures r.Pass? ==> sent == old(sent) + [Publication(topic, Message(jobId, topic, payload))]
      ensures topic !in topics ==> r.Fail? && sent == old(sent)
    {
      var m := NewMessageWithId(jobId, payload);
      m := m.(topic := topic);
      var encoded := marshalError(m);
      if encoded.Some? {
        return Fail(encoded.value);
      }
      r := Send(topic, m);
    }

    /** `Publish` sending to the topic the subscription reads: the message is
        stamped with the stage topic, which is what the receiver routes on. */
    method Publish(topic: string, payload: Payload, jobId: UUID, marshalError: Message -> Option<string>)
      returns (r: Outcome)
      modifies this
      ensures topics == old(topics) && publishError == old(publishError)
      ensures marshalError(Message(jobId, topic, payload)).Some? ==>
        r == Fail(marshalError(Message(jobId, topic, payload)).value) && sent == old(sent)
      ensures marshalError(Message(jobId, topic, payload)).None? ==>
        (r.Pass? <==> IsardTopic in topics && publishError.None?)
      ensures r.Pass? ==> sent == old(sent) + [Publication(IsardTopic, Message(jobId, topic, payload))]
      ensures r.Fail? ==> sent == old(sent)
      ensures r == PublishOutcome(topics, publishError, marshalError, Message(jobId, topic, payload))
    {
      var m := NewMessageWithId(jobId, payload);
      m := m.(topic := topic);
      var encoded := marshalError(m);
      if encoded.Some? {
        return Fail(encoded.value);
      }
      r := Send(IsardTopic, m);
    }
  }

  /** What the subscription receives: the messages sent to "isard-topic". */
  function Delivered(sent: seq<Publication>): (r: seq<Message>)
    ensures |r| <= |sent|
  {
    if sent == [] then []
    else Delivered(sent[..|sent| - 1])
         + (if sent[|sent| - 1].topicName == IsardTopic then [sent[|sent| - 1].message] else [])
  }

  /** Appending a publication delivers it exactly when it went to "isard-topic". */
  lemma DeliveredSnoc(sent: seq<Publication>, p: Publication)
    ensures Delivered(sent + [p]) == Delivered(sent) + (if p.topicName == IsardTopic then [p.message] else [])
  {
    assert (sent + [p])[..|sent|] == sent;
  }

  /** Delivery is the filter on the subscription's topic: a message is
      delivered exactly when it was sent to "isard-topic". */
  lemma {:induction false} DeliveredIsFilter(sent: seq<Publication>, m: Message)
    ensures m in Delivered(sent) <==> Publication(IsardTopic, m) in sent
  {
    if sent != [] {
      var init, last := sent[..|sent| - 1], sent[|sent| - 1];
      DeliveredIsFilter(init, m);
      assert sent == init + [last];
      assert Publication(IsardTopic, m) in sent <==> Publication(IsardTopic, m) in init || Publication(IsardTopic, m) == last;
    }
  }

  /** Delivery keeps the order of publication: what was sent first is
      delivered first. */
  lemma {:induction false} DeliveredAppend(a: seq<Publication>, b: seq<Publication>)
    ensures Delivered(a + b) == Delivered(a) + Delivered(b)
    decreases |b|
  {
    if b == [] {
      assert a + b == a;
    } else {
      var init, last := b[..|b| - 1], b[|b| - 1];
      var tail := if last.topicName == IsardTopic then [last.message] else [];
      assert b == init + [last];
      assert a + b == (a + init) + [last];
      DeliveredAppend(a, init);
      DeliveredSnoc(a + init, last);
      DeliveredSnoc(init, last);
      assert Delivered(a + b) == (Delivered(a) + Delivered(init)) + tail;
      assert Delivered(b) == Delivered(init) + tail;
    }
  }

  /** As written, no lifecycle message is ever delivered: on the service the
      setup creates, publishing to a stage topic fails with NotFound and
      nothing is sent. */
  method StageTopicsNeverDeliveredAsWritten(b: PubSubBroker, topic: string, payload: Payload, jobId: UUID,
                                            marshalError: Message -> Option<string>)
    requires b.topics == {IsardTopic}
    requires Route(topic).Some?
    modifies b
    ensures b.sent == old(b.sent)
  {
    assert topic != IsardTopic;
    var r := b.PublishAsWritten(topic, payload, jobId, marshalError);
  }

  /** With the subscription's topic, a successful publish is delivered, and
      the receiver routes it to the handler of the stage it was published for. */
  method PublishedIsDelivered(b: PubSubBroker, topic: string, payload: Payload, jobId: UUID,
                              marshalError: Message -> Option<string>) returns (r: Outcome)
    modifies b
    ensures (marshalError(Message(jobId, topic, payload)).None? && IsardTopic in old(b.topics)
             && b.publishError.None?) ==> r.Pass?
    ensures r.Pass? ==>
      && Delivered(b.sent) == Delivered(old(b.sent)) + [Message(jobId, topic, payload)]
      && Route(Delivered(b.sent)[|Delivered(b.sent)| - 1].topic) == Route(topic)
    ensures r.Fail? ==> Delivered(b.sent) == Delivered(old(b.sent))
  {
    r := b.Publish(topic, payload, jobId, marshalError);
    if r.Pass? {
      DeliveredSnoc(old(b.sent), Publication(IsardTopic, Message(jobId, topic, payload)));
    }
  }
}
