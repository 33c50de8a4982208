/**
 * `notification` (notification.go): the simpler notification variant. It has
 * no FIFO, service-to-service or extra-attribute settings, always sets the
 * subject, deduplicates on any type ID, sends its payload attributes as
 * "String.Array", and counts only the message, subject and body toward the
 * size limit.
 */
module WebNotification {
  import opened Wrappers
  import opened GoValues
  import opened SnsCommon
  import AwsSnsNotification

  /** Largest notification SNS accepts, in bytes (256 KiB); this variant's own copy of the constant. */
  const MaxSnsMessageSize: nat := 256 * 1024

  /** The fields of a `notification`, as one value. */
  datatype Record = Record(
    topic: string,
    message: string,
    subject: string,
    recipients: Any,
    body: Any,
    notificationType: string,
    typeId: string)

  /** What `validate` leaves behind: the notification's new fields and the error it returned (`None` for nil). */
  datatype Validation = Validation(state: Record, error: Option<Error>)

  /**
   * `validateMessageSize`: the byte lengths of the message, the subject and
   * the body's JSON, rejected when over 256 KiB. It asserts that Body is JSON
   * without checking, so a Body that is not JSON (only the nil Body can reach
   * this point) panics.
   */
  function CheckMessageSize(f: Record): (r: Option<Error>)
    ensures r == Some(BodyNotJsonPanic) <==> !f.body.Json?
    ensures r == Some(OverSizeLimit) <==> f.body.Json? && Len(f.message + f.subject + f.body.doc) > MaxSnsMessageSize
    ensures r.None? <==> f.body.Json? && Len(f.message + f.subject + f.body.doc) <= MaxSnsMessageSize
  {
    if !f.body.Json? then Some(BodyNotJsonPanic)
    else
      LenAppend(f.message, f.subject);
      LenAppend(f.message + f.subject, f.body.doc);
      var size := Len(f.message) + Len(f.subject) + Len(f.body.doc);
      if size > MaxSnsMessageSize then Some(OverSizeLimit) else None
  }

  /** `validate`: the three guards, then recipients and body serialised in place, then the size check. */
  function Validated(f: Record, marshal: Marshaller): Validation
  {
    if f.topic == "" then Validation(f, Some(TopicRequired))
    else if f.message == "" then Validation(f, Some(MessageRequired))
    else if f.recipients == Nil then Validation(f, Some(RecipientRequired))
    else match ParsedRecipients(f.recipients, marshal)
      case Failure(e) => Validation(f, Some(e))
      case Success(recipients) =>
        var f1 := f.(recipients := recipients);
        match ParsedBody(f1.body, marshal)
        case Failure(e) => Validation(f1, Some(InvalidJsonBody(e)))
        case Success(body) =>
          var f2 := f1.(body := body);
          Validation(f2, CheckMessageSize(f2))
  }

  /** The attributes `build` derives from the type and type ID fields. */
  function TypeAttributes(f: Record): AttributeMap
  {
    var a: AttributeMap := if f.notificationType != "" then map["type" := Attribute("String", f.notificationType)] else map[];
    if f.typeId != "" then a["typeId" := Attribute("String", f.typeId)] else a
  }

  /** All attributes of `build`; the payload ones are typed "String.Array". */
  function Attributes(f: Record): AttributeMap
  {
    var a := TypeAttributes(f);
    var b := if f.recipients.Json? then a["recipients" := Attribute("String.Array", f.recipients.doc)] else a;
    if f.body.Json? then b["body" := Attribute("String.Array", f.body.doc)] else b
  }

  /** `build`: the publish request. */
  function BuildInput(f: Record, arnOf: string -> string): PublishInput
  {
    var attributes := Attributes(f);
    PublishInput(
      topicArn := arnOf(f.topic),
      message := f.message,
      subject := Some(f.subject),
      deduplicationId := if f.typeId != "" then Some(f.typeId) else None,
      groupId := None,
      attributes := if attributes == map[] then None else Some(attributes))
  }

  // ---------------------------------------------------------------------------
  // Properties of validate and build
  // ---------------------------------------------------------------------------

  /** The guards reject in a fixed order, before anything is serialised: empty topic, empty message, nil recipients. */
  lemma ValidateGuardOrder(f: Record, marshal: Marshaller)
    ensures f.topic == "" ==> Validated(f, marshal) == Validation(f, Some(TopicRequired))
    ensures f.topic != "" && f.message == "" ==> Validated(f, marshal) == Validation(f, Some(MessageRequired))
    ensures f.topic != "" && f.message != "" && f.recipients == Nil
      ==> Validated(f, marshal) == Validation(f, Some(RecipientRequired))
  {
  }

  /**
   * `validate` succeeds exactly when the three guards pass, recipients and
   * body both serialise, and message, subject and body JSON together take at
   * most 256 KiB. A nil body passes `parseBody` and then panics in the size
   * check. On success both payload fields hold their JSON. A recipients
   * marshal error is returned as is with nothing changed; a body marshal
   * error comes back as "invalid JSON body: <cause>", with the recipients
   * already serialised.
   */
  lemma ValidateAccepts(f: Record, marshal: Marshaller)
    ensures var r := Validated(f, marshal);
      r.error == None <==>
        && f.topic != "" && f.message != "" && f.recipients != Nil
        && marshal(f.recipients).Success? && f.body != Nil && marshal(f.body).Success?
        && Len(f.message) + Len(f.subject) + Len(marshal(f.body).value) <= MaxSnsMessageSize
    ensures var r := Validated(f, marshal);
      r.error == None ==>
        r.state == f.(recipients := Json(marshal(f.recipients).value), body := Json(marshal(f.body).value))
    ensures var r := Validated(f, marshal);
      r.error == Some(BodyNotJsonPanic) <==>
        f.topic != "" && f.message != "" && f.recipients != Nil && marshal(f.recipients).Success? && f.body == Nil
    ensures var r := Validated(f, marshal);
      var guardsPass := f.topic != "" && f.message != "" && f.recipients != Nil;
      && (guardsPass && marshal(f.recipients).Failure? ==>
            r == Validation(f, Some(MarshalFailed(marshal(f.recipients).error))))
      && (guardsPass && marshal(f.recipients).Success? && f.body != Nil && marshal(f.body).Failure? ==>
            r == Validation(f.(recipients := Json(marshal(f.recipients).value)), Some(InvalidJsonBody(marshal(f.body).error))))
  {
  }

  /** Type, type ID and recipients do not count toward the size limit. */
  lemma SizeIgnoresTypeAndRecipients(f: Record, notificationType: string, typeId: string, recipients: Any)
    ensures CheckMessageSize(f.(notificationType := notificationType, typeId := typeId, recipients := recipients))
         == CheckMessageSize(f)
  {
  }

  /**
   * The request fields of `build`: the topic's ARN and the message; the
   * subject always, even when empty; a deduplication ID whenever there is a
   * type ID, FIFO or not; never a group ID.
   */
  lemma BuildFields(f: Record, arnOf: string -> string)
    ensures var p := BuildInput(f, arnOf);
      && p.topicArn == arnOf(f.topic) && p.message == f.message
      && p.subject == Some(f.subject)
      && (p.deduplicationId.Some? <==> f.typeId != "")
      && (p.deduplicationId.Some? ==> p.deduplicationId.value == f.typeId)
      && p.groupId == None
  {
  }

  /** The keys `build` may add. */
  const AttributeKeys: set<string> := {"type", "typeId", "recipients", "body"}

  /**
   * The attributes of `build`: "type" and "typeId" (DataType "String")
   * exactly when those fields are non-empty, "recipients" and "body"
   * (DataType "String.Array") exactly when those fields hold JSON, nothing
   * else, and no map at all when it would be empty.
   */
  lemma {:induction false} BuildAttributes(f: Record, arnOf: string -> string)
    ensures var p := BuildInput(f, arnOf);
      && AttributeAt(p, "type") == (if f.notificationType != "" then Some(Attribute("String", f.notificationType)) else None)
      && AttributeAt(p, "typeId") == (if f.typeId != "" then Some(Attribute("String", f.typeId)) else None)
      && AttributeAt(p, "recipients") == (if f.recipients.Json? then Some(Attribute("String.Array", f.recipients.doc)) else None)
      && AttributeAt(p, "body") == (if f.body.Json? then Some(Attribute("String.Array", f.body.doc)) else None)
      && (forall k :: AttributeAt(p, k).Some? ==> k in AttributeKeys)
      && (p.attributes.None? <==>
            f.notificationType == "" && f.typeId == "" && !f.recipients.Json? && !f.body.Json?)
  {
    var a := Attributes(f);
    assert a.Keys <= AttributeKeys;
    assert f.notificationType != "" ==> "type" in a;
    assert f.typeId != "" ==> "typeId" in a;
    assert f.recipients.Json? ==> "recipients" in a;
    assert f.body.Json? ==> "body" in a;
  }

  /** Validate then build: the request carries the recipients' and the body's JSON. */
  lemma ValidatedPayloadIsPublished(f: Record, marshal: Marshaller, arnOf: string -> string)
    requires Validated(f, marshal).error == None
    ensures var p := BuildInput(Validated(f, marshal).state, arnOf);
      && AttributeAt(p, "recipients") == Some(Attribute("String.Array", marshal(f.recipients).value))
      && AttributeAt(p, "body") == Some(Attribute("String.Array", marshal(f.body).value))
  {
  }

  /**
   * A notification built by `NewNotification` never reaches the panic of the
   * size check: its Body holds the argument slice, which is never nil.
   */
  lemma NewNotificationNeverPanics(topic: string, message: string, subject: string, notificationType: string,
                                   typeId: string, recipients: Any, body: seq<Any>, marshal: Marshaller)
    ensures Validated(Record(topic, message, subject, recipients, Slice(body), notificationType, typeId), marshal).error
         != Some(BodyNotJsonPanic)
  {
  }

  // ---------------------------------------------------------------------------
  // The two variants side by side
  // ---------------------------------------------------------------------------

  /** The `SNSNotification` with the same fields: not FIFO, not service-to-service, no group ID, no extra attributes. */
  function AsSnsNotification(f: Record): AwsSnsNotification.Record
  {
    AwsSnsNotification.Record(
      isFifo := false, topic := f.topic, message := f.message, subject := f.subject,
      recipients := f.recipients, body := f.body, notificationType := f.notificationType, typeId := f.typeId,
      messageGroupId := "", isServiceToService := false, extraAttributes := map[])
  }

  /**
   * Where the variants part on the same fields: this one sets an empty
   * subject and deduplicates on the type ID without FIFO, where
   * `SNSNotification` does neither; its payload attributes are "String.Array"
   * where the other's are "String"; and the other's size also counts type,
   * type ID and recipients.
   */
  lemma {:induction false} ComparedWithSnsNotification(f: Record, arnOf: string -> string)
    ensures var p := BuildInput(f, arnOf);
      var q := AwsSnsNotification.BuildInput(AsSnsNotification(f), arnOf);
      && (f.subject == "" ==> p.subject == Some("") && q.subject == None)
      && (f.typeId != "" ==> p.deduplicationId == Some(f.typeId) && q.deduplicationId == None)
      && (f.recipients.Json? ==>
            AttributeAt(p, "recipients") == Some(Attribute("String.Array", f.recipients.doc))
            && AttributeAt(q, "recipients") == Some(Attribute("String", f.recipients.doc)))
    ensures f.body.Json? ==>
      AwsSnsNotification.MessageSize(AsSnsNotification(f))
        == Len(f.message) + Len(f.subject) + Len(f.body.doc)
           + Len(f.notificationType) + Len(f.typeId) + AwsSnsNotification.JsonLen(f.recipients)
  {
    BuildAttributes(f, arnOf);
    AwsSnsNotification.BuildAttributes(AsSnsNotification(f), arnOf);
    assert AwsSnsNotification.ExtraSize(map[]) == 0;
  }

  // ---------------------------------------------------------------------------
  // The notification object
  // ---------------------------------------------------------------------------

  class Notification {
    var topic: string
    var message: string
    var subject: string
    var recipients: Any
    var body: Any
    var notificationType: string
    var typeId: string

    /** The notification's fields, as a value. */
    function Snapshot(): Record
      reads this
    {
      Record(topic, message, subject, recipients, body, notificationType, typeId)
    }

    /** `NewNotification`: copies each argument into its field; Body is the slice of variadic arguments. */
    constructor NewNotification(topic: string, message: string, subject: string, notificationType: string,
                                typeId: string, recipients: Any, body: seq<Any>)
      ensures Snapshot() == Record(topic, message, subject, recipients, Slice(body), notificationType, typeId)
    {
      this.topic := topic;
      this.message := message;
      this.subject := subject;
      this.recipients := recipients;
      this.body := Slice(body);
      this.typeId := typeId;
      this.notificationType := notificationType;
    }

    /** `parseBody`: overwrites Body with its JSON form; a nil Body and a failed marshal leave it as it was. */
    method ParseBody(marshal: Marshaller) returns (err: Option<string>)
      modifies this`body
      ensures var p := ParsedBody(old(body), marshal);
        if p.Success? then body == p.value && err == None
        else body == old(body) && err == Some(p.error)
    {
      if body == Nil {
        return None;
      }
      match marshal(body)
      case Failure(e) =>
        err := Some(e);
      case Success(b) =>
        body := Json(b);
        err := None;
    }

    /** `parseRecipients`: overwrites Recipients with their JSON form, or fails and leaves them. */
    method ParseRecipients(marshal: Marshaller) returns (err: Option<Error>)
      modifies this`recipients
      ensures var p := ParsedRecipients(old(recipients), marshal);
        if p.Success? then recipients == p.value && err == None
        else recipients == old(recipients) && err == Some(p.error)
    {
      if recipients == Nil {
        return Some(RecipientRequired);
      }
      match marshal(recipients)
      case Failure(e) =>
        err := Some(MarshalFailed(e));
      case Success(b) =>
        recipients := Json(b);
        err := None;
    }

    /** `validate`: the guards, then the in-place serialisations, then the size check. */
    method Validate(marshal: Marshaller) returns (err: Option<Error>)
      modifies this
      ensures Validation(Snapshot(), err) == Validated(old(Snapshot()), marshal)
    {
      if topic == "" {
        return Some(TopicRequired);
      }
      if message == "" {
        return Some(MessageRequired);
      }
      if recipients == Nil {
        return Some(RecipientRequired);
      }
      err := ParseRecipients(marshal);
      if err.Some? {
        return err;
      }
      var bodyErr := ParseBody(marshal);
      if bodyErr.Some? {
        return Some(InvalidJsonBody(bodyErr.value));
      }
      err := CheckMessageSize(Snapshot());
    }

    /** `getTopic`: the topic's ARN, as the (external) ARN resolver gives it; `build` publishes to it. */
    function GetTopic(arnOf: string -> string): (arn: string)
      reads this
      ensures arn == BuildInput(Snapshot(), arnOf).topicArn
    {
      arnOf(topic)
    }

    /** `build`: the publish request, with its attributes inserted one condition at a time. */
    method Build(arnOf: string -> string) returns (input: PublishInput)
      ensures input == BuildInput(Snapshot(), arnOf)
    {
      var f := Snapshot();
      var attributes: AttributeMap := map[];
      var dedupPtr: Option<string> := None;
      if f.notificationType != "" {
        attributes := attributes["type" := Attribute("String", f.notificationType)];
      }
      if f.typeId != "" {
        dedupPtr := Some(f.typeId);
        attributes := attributes["typeId" := Attribute("String", f.typeId)];
      }
      assert attributes == TypeAttributes(f);
      if f.recipients.Json? {
        attributes := attributes["recipients" := Attribute("String.Array", f.recipients.doc)];
      }
      if f.body.Json? {
        attributes := attributes["body" := Attribute("String.Array", f.body.doc)];
      }
      input := PublishInput(GetTopic(arnOf), f.message, Some(f.subject), dedupPtr, None,
                            if attributes == map[] then None else Some(attributes));
    }
  }
}
