/**
 * `SNSNotification` (aws-sns-notification.go): a notification for an SNS
 * topic, possibly FIFO, possibly sent between services, with caller-supplied
 * extra message attributes. `validate` checks it and serialises its payload
 * fields in place; `build` turns it into a publish request.
 */
module AwsSnsNotification {
  import opened Wrappers
  import opened GoValues
  import opened SnsCommon

  /** Largest notification SNS accepts, in bytes (256 KiB). */
  const MaxSnsMessageSize: nat := 256 * 1024

  /** The fields of an `SNSNotification`, as one value. */
  datatype Record = Record(
    isFifo: bool,
    topic: string,
    message: string,
    subject: string,
    recipients: Any,
    body: Any,
    notificationType: string,
    typeId: string,
    messageGroupId: string,
    isServiceToService: bool,
    extraAttributes: AttributeMap)

  /** What `validate` leaves behind: the notification's new fields and the error it returned (`None` for nil). */
  datatype Validation = Validation(state: Record, error: Option<Error>)

  // ---------------------------------------------------------------------------
  // Message size
  // ---------------------------------------------------------------------------

  /** Some key of a non-empty map; Go ranges over a map in no fixed order. */
  ghost function SomeKey(m: AttributeMap): (k: string)
    requires m != map[]
    ensures k in m
  {
    var k :| k in m; k
  }

  /** Bytes one extra attribute adds: its key, and its string value when that is set. */
  function EntrySize(key: string, v: Option<AttributeValue>): nat
  {
    Len(key) + if v.Some? && v.value.stringValue.Some? then Len(v.value.stringValue.value) else 0
  }

  /** True when some extra attribute is a nil pointer, which the size loop dereferences. */
  ghost predicate HasNilAttribute(m: AttributeMap)
  {
    exists k :: k in m && m[k].None?
  }

  /** The bytes all extra attributes add, summed over the map in any order. */
  ghost function ExtraSize(m: AttributeMap): nat
    decreases |m|
  {
    if m == map[] then 0
    else
      var k := SomeKey(m);
      assert |m - {k}| < |m| by { assert (m - {k}).Keys + {k} == m.Keys; }
      EntrySize(k, m[k]) + ExtraSize(m - {k})
  }

  /** The sum does not depend on which key is taken first. */
  lemma {:induction false} ExtraSizeRemove(m: AttributeMap, k: string)
    requires k in m
    ensures ExtraSize(m) == EntrySize(k, m[k]) + ExtraSize(m - {k})
    decreases |m|
  {
    var j := SomeKey(m);
    assert (m - {j}).Keys + {j} == m.Keys;
    if j != k {
      assert (m - {k}).Keys + {k} == m.Keys;
      ExtraSizeRemove(m - {j}, k);
      ExtraSizeRemove(m - {k}, j);
      assert m - {j} - {k} == m - {k} - {j};
    }
  }

  /** Taking one non-nil entry out of the map neither adds nor removes a nil attribute. */
  lemma RemoveKeepsNils(m: AttributeMap, k: string)
    requires k in m && m[k].Some?
    ensures HasNilAttribute(m) == HasNilAttribute(m - {k})
    ensures |m - {k}| < |m|
  {
    if HasNilAttribute(m) {
      var j :| j in m && m[j].None?;
      assert j in m - {k};
    }
    assert (m - {k}).Keys + {k} == m.Keys;
  }

  /** Length in bytes of a payload field when it already holds JSON, else 0. */
  function JsonLen(v: Any): nat
  {
    if v.Json? then Len(v.doc) else 0
  }

  /** The size `validateMessageSize` measures. */
  ghost function MessageSize(f: Record): nat
  {
    Len(f.message) + Len(f.subject)
    + Len(f.notificationType) + Len(f.typeId) + JsonLen(f.body) + JsonLen(f.recipients)
    + ExtraSize(f.extraAttributes)
  }

  /** The text of a payload field when it already holds JSON, else nothing. */
  function JsonText(v: Any): string
  {
    if v.Json? then v.doc else ""
  }

  /**
   * The size `validateMessageSize` sums field by field is the byte length of
   * the message, subject, type, type ID, body JSON and recipients JSON laid
   * end to end, plus the extra attributes' keys and string values.
   */
  lemma MessageSizeIsFieldBytes(f: Record)
    ensures MessageSize(f)
      == Len(f.message + f.subject + f.notificationType + f.typeId + JsonText(f.body) + JsonText(f.recipients))
         + ExtraSize(f.extraAttributes)
  {
    LenAppend(f.message, f.subject);
    LenAppend(f.message + f.subject, f.notificationType);
    LenAppend(f.message + f.subject + f.notificationType, f.typeId);
    LenAppend(f.message + f.subject + f.notificationType + f.typeId, JsonText(f.body));
    LenAppend(f.message + f.subject + f.notificationType + f.typeId + JsonText(f.body), JsonText(f.recipients));
  }

  /** `validateMessageSize`: a nil extra attribute panics; otherwise too large iff over the limit. */
  ghost function SizeCheck(f: Record): Option<Error>
  {
    if HasNilAttribute(f.extraAttributes) then Some(NilAttributePanic)
    else if MessageSize(f) > MaxSnsMessageSize then Some(TooLarge(MessageSize(f)))
    else None
  }

  // ---------------------------------------------------------------------------
  // Validation and build, on values
  // ---------------------------------------------------------------------------

  /** `validate`: the guards in order, then the in-place serialisations, then the size check. */
  ghost function Validated(f: Record, marshal: Marshaller): Validation
  {
    if f.topic == "" then Validation(f, Some(TopicRequired))
    else if f.message == "" then Validation(f, Some(MessageRequired))
    else if f.isFifo && f.typeId == "" && f.messageGroupId == "" then Validation(f, Some(FifoRequiresId))
    else
      var recipients := if f.isServiceToService then Success(f.recipients) else ParsedRecipients(f.recipients, marshal);
      if recipients.Failure? then Validation(f, Some(recipients.error))
      else
        var f1 := f.(recipients := recipients.value);
        var body := ParsedBody(f1.body, marshal);
        if body.Failure? then Validation(f1, Some(InvalidJsonBody(body.error)))
        else
          var f2 := f1.(body := body.value);
          Validation(f2, SizeCheck(f2))
  }

  /** The attributes `build` derives from the type and type ID fields. */
  function TypeAttributes(f: Record): AttributeMap
  {
    var a: AttributeMap := if f.notificationType != "" then map["type" := Attribute("String", f.notificationType)] else map[];
    if f.typeId != "" then a["typeId" := Attribute("String", f.typeId)] else a
  }

  /** The attributes `build` derives from the notification's own fields. */
  function BaseAttributes(f: Record): AttributeMap
  {
    var a := TypeAttributes(f);
    var b := if f.recipients.Json? then a["recipients" := Attribute("String", f.recipients.doc)] else a;
    if f.body.Json? then b["body" := Attribute("String", f.body.doc)] else b
  }

  /** `build`: the publish request, with the extra attributes merged over the derived ones. */
  function BuildInput(f: Record, arnOf: string -> string): PublishInput
  {
    var attributes := BaseAttributes(f) + f.extraAttributes;
    PublishInput(
      topicArn := arnOf(f.topic),
      message := f.message,
      subject := if f.subject != "" then Some(f.subject) else None,
      deduplicationId := if f.typeId != "" && f.isFifo then Some(f.typeId) else None,
      groupId := if f.typeId != "" && f.isFifo && f.messageGroupId != "" then Some(f.messageGroupId) else None,
      attributes := if attributes == map[] then None else Some(attributes))
  }

  /** One step of merging a map key by key: `k` moves from the part still to copy to the part copied. */
  lemma MergeStep(base: AttributeMap, done: AttributeMap, rest: AttributeMap, k: string)
    requires k in rest && done.Keys !! rest.Keys
    ensures (base + done)[k := rest[k]] == base + done[k := rest[k]]
    ensures done[k := rest[k]] + (rest - {k}) == done + rest
  {
  }

  /** After that step the two parts are still disjoint, and fewer entries remain. */
  lemma MergeStepProgress(done: AttributeMap, rest: AttributeMap, k: string)
    requires k in rest && done.Keys !! rest.Keys
    ensures done[k := rest[k]].Keys !! (rest - {k}).Keys
    ensures |rest - {k}| < |rest|
  {
  }

  /**
   * `for k, v := range extra { attributes[k] = v }`: copies every entry of
   * `extra` into `attributes`, overwriting entries with the same key.
   */
  method CopyAttributes(attributes: AttributeMap, extra: AttributeMap) returns (merged: AttributeMap)
    ensures merged == attributes + extra
  {
    merged := attributes;
    var rest := extra;
    ghost var done: AttributeMap := map[];
    while rest != map[]
      invariant done.Keys !! rest.Keys && done + rest == extra
      invariant merged == attributes + done
      decreases |rest|
    {
      var k :| k in rest;
      MergeStep(attributes, done, rest, k);
      MergeStepProgress(done, rest, k);
      merged := merged[k := rest[k]];
      done := done[k := rest[k]];
      rest := rest - {k};
    }
    assert done == extra;
  }

  /**
   * The loop of `validateMessageSize` over the extra attributes: adds the
   * byte length of each key and of each string value that is set, visiting
   * the keys in any order; dereferencing a nil attribute panics.
   */
  method AttributesSize(extra: AttributeMap) returns (size: nat, panics: bool)
    ensures panics == HasNilAttribute(extra)
    ensures !panics ==> size == ExtraSize(extra)
  {
    size := 0;
    var rest := extra;
    while rest != map[]
      invariant HasNilAttribute(extra) == HasNilAttribute(rest)
      invariant size + ExtraSize(rest) == ExtraSize(extra)
      decreases |rest|
    {
      var k :| k in rest;
      var v := rest[k];
      if v.None? {
        return 0, true;
      }
      size := size + Len(k);
      if v.value.stringValue.Some? {
        size := size + Len(v.value.stringValue.value);
      }
      ExtraSizeRemove(rest, k);
      RemoveKeepsNils(rest, k);
      rest := rest - {k};
    }
    panics := false;
  }

  // ---------------------------------------------------------------------------
  // Properties of validate and build
  // ---------------------------------------------------------------------------

  /**
   * The guards come first and in a fixed order: an empty topic, then an empty
   * message, then a FIFO notification with neither type ID nor group ID, then
   * missing recipients (only checked when the notification is not
   * service-to-service). Each rejects before anything is serialised.
   */
  lemma ValidateGuardOrder(f: Record, marshal: Marshaller)
    ensures f.topic == "" ==> Validated(f, marshal) == Validation(f, Some(TopicRequired))
    ensures f.topic != "" && f.message == "" ==> Validated(f, marshal) == Validation(f, Some(MessageRequired))
    ensures f.topic != "" && f.message != "" && f.isFifo && f.typeId == "" && f.messageGroupId == ""
      ==> Validated(f, marshal) == Validation(f, Some(FifoRequiresId))
    ensures f.topic != "" && f.message != "" && !(f.isFifo && f.typeId == "" && f.messageGroupId == "")
      && !f.isServiceToService && f.recipients == Nil
      ==> Validated(f, marshal) == Validation(f, Some(RecipientRequired))
  {
  }

  /** The size validate measures once both payload fields have been serialised as far as they will be. */
  ghost function SerialisedSize(f: Record, marshal: Marshaller): nat
  {
    var recipients := if f.isServiceToService then f.recipients
                      else if marshal(f.recipients).Success? then Json(marshal(f.recipients).value) else f.recipients;
    var body := if f.body != Nil && marshal(f.body).Success? then Json(marshal(f.body).value) else f.body;
    MessageSize(f.(recipients := recipients, body := body))
  }

  /**
   * `validate` changes nothing but Recipients and Body. Recipients are only
   * touched when the notification is not service-to-service, and then only
   * replaced by their JSON serialisation; Body is only replaced by its JSON
   * serialisation, and a nil Body is never touched.
   */
  lemma ValidateOnlySerialisesPayload(f: Record, marshal: Marshaller)
    ensures var r := Validated(f, marshal);
      && r.state == f.(recipients := r.state.recipients, body := r.state.body)
      && (r.state.recipients == f.recipients
          || (!f.isServiceToService && marshal(f.recipients).Success?
              && r.state.recipients == Json(marshal(f.recipients).value)))
      && (r.state.body == f.body
          || (f.body != Nil && marshal(f.body).Success? && r.state.body == Json(marshal(f.body).value)))
  {
  }

  /**
   * `validate` succeeds exactly when every guard passes, both serialisations
   * succeed, no extra attribute is nil and the measured size is at most
   * 256 KiB. On success the recipients (unless service-to-service) and a
   * non-nil body are JSON; a size rejection reports a size over the limit.
   * A recipients marshal error is returned as is with nothing changed; a body
   * marshal error comes back as "invalid JSON body: <cause>", with the
   * recipients already serialised.
   */
  lemma ValidateAccepts(f: Record, marshal: Marshaller)
    ensures var r := Validated(f, marshal);
      r.error == None <==>
        && f.topic != "" && f.message != ""
        && !(f.isFifo && f.typeId == "" && f.messageGroupId == "")
        && (f.isServiceToService || (f.recipients != Nil && marshal(f.recipients).Success?))
        && (f.body == Nil || marshal(f.body).Success?)
        && !HasNilAttribute(f.extraAttributes)
        && SerialisedSize(f, marshal) <= MaxSnsMessageSize
    ensures var r := Validated(f, marshal);
      r.error == None ==>
        && (!f.isServiceToService ==> r.state.recipients == Json(marshal(f.recipients).value))
        && (f.body == Nil ==> r.state.body == Nil)
        && (f.body != Nil ==> r.state.body == Json(marshal(f.body).value))
    ensures var r := Validated(f, marshal);
      r.error.Some? && r.error.value.TooLarge? ==>
        r.error.value.size == SerialisedSize(f, marshal) > MaxSnsMessageSize
    ensures var r := Validated(f, marshal);
      var guardsPass := f.topic != "" && f.message != "" && !(f.isFifo && f.typeId == "" && f.messageGroupId == "");
      && (guardsPass && !f.isServiceToService && f.recipients != Nil && marshal(f.recipients).Failure? ==>
            r == Validation(f, Some(MarshalFailed(marshal(f.recipients).error))))
      && (guardsPass && (f.isServiceToService || (f.recipients != Nil && marshal(f.recipients).Success?))
          && f.body != Nil && marshal(f.body).Failure? ==>
            && r.error == Some(InvalidJsonBody(marshal(f.body).error))
            && r.state == f.(recipients := if f.isServiceToService then f.recipients else Json(marshal(f.recipients).value)))
  {
  }

  /**
   * The request fields of `build`: the topic's ARN and the message always;
   * the subject only when it is non-empty; a deduplication ID only for a FIFO
   * notification with a type ID, and a group ID only when in addition the
   * group ID is non-empty.
   */
  lemma BuildFields(f: Record, arnOf: string -> string)
    ensures var p := BuildInput(f, arnOf);
      && p.topicArn == arnOf(f.topic) && p.message == f.message
      && (p.subject.Some? <==> f.subject != "")
      && (p.subject.Some? ==> p.subject.value == f.subject)
      && (p.deduplicationId.Some? <==> f.isFifo && f.typeId != "")
      && (p.deduplicationId.Some? ==> p.deduplicationId.value == f.typeId)
      && (p.groupId.Some? <==> f.isFifo && f.typeId != "" && f.messageGroupId != "")
      && (p.groupId.Some? ==> p.groupId.value == f.messageGroupId)
  {
  }

  /** The keys `build` itself may add. */
  const DerivedKeys: set<string> := {"type", "typeId", "recipients", "body"}

  /**
   * The attributes of `build`: "type" and "typeId" exactly when those fields
   * are non-empty, "recipients" and "body" exactly when those fields already
   * hold JSON, all with DataType "String"; every extra attribute is present
   * with its own value and overrides a derived one of the same name; no other
   * key appears; and the map is left unset exactly when it would be empty.
   */
  lemma {:induction false} BuildAttributes(f: Record, arnOf: string -> string)
    ensures var p := BuildInput(f, arnOf);
      && (forall k :: k in f.extraAttributes ==> AttributeAt(p, k) == Some(f.extraAttributes[k]))
      && ("type" !in f.extraAttributes ==>
            AttributeAt(p, "type") == if f.notificationType != "" then Some(Attribute("String", f.notificationType)) else None)
      && ("typeId" !in f.extraAttributes ==>
            AttributeAt(p, "typeId") == if f.typeId != "" then Some(Attribute("String", f.typeId)) else None)
      && ("recipients" !in f.extraAttributes ==>
            AttributeAt(p, "recipients") == if f.recipients.Json? then Some(Attribute("String", f.recipients.doc)) else None)
      && ("body" !in f.extraAttributes ==>
            AttributeAt(p, "body") == if f.body.Json? then Some(Attribute("String", f.body.doc)) else None)
      && (forall k :: AttributeAt(p, k).Some? ==> k in f.extraAttributes || k in DerivedKeys)
      && (p.attributes.None? <==>
            f.notificationType == "" && f.typeId == "" && !f.recipients.Json? && !f.body.Json?
            && f.extraAttributes == map[])
      && (p.attributes.Some? ==> p.attributes.value != map[])
  {
    var base := BaseAttributes(f);
    assert base.Keys <= DerivedKeys;
    assert f.notificationType != "" ==> "type" in base;
    assert f.typeId != "" ==> "typeId" in base;
    assert f.recipients.Json? ==> "recipients" in base;
    assert f.body.Json? ==> "body" in base;
  }

  /**
   * Validate then build: once validated, a notification that is not
   * service-to-service carries the recipients' JSON under "recipients"; a
   * service-to-service one carries its recipients there only if they were
   * already JSON. The body's JSON is under "body" when there is a body, and
   * a nil body publishes no "body". An extra attribute of the same name
   * overrides either.
   */
  lemma {:induction false} ValidatedPayloadIsPublished(f: Record, marshal: Marshaller, arnOf: string -> string)
    requires Validated(f, marshal).error == None
    ensures var p := BuildInput(Validated(f, marshal).state, arnOf);
      && (!f.isServiceToService && "recipients" !in f.extraAttributes ==>
            AttributeAt(p, "recipients") == Some(Attribute("String", marshal(f.recipients).value)))
      && (f.isServiceToService && "recipients" !in f.extraAttributes ==>
            AttributeAt(p, "recipients")
              == (if f.recipients.Json? then Some(Attribute("String", f.recipients.doc)) else None))
      && (f.body != Nil && "body" !in f.extraAttributes ==>
            AttributeAt(p, "body") == Some(Attribute("String", marshal(f.body).value)))
      && (f.body == Nil && "body" !in f.extraAttributes ==> AttributeAt(p, "body") == None)
  {
    var r := Validated(f, marshal);
    ValidateAccepts(f, marshal);
    ValidateOnlySerialisesPayload(f, marshal);
    BuildAttributes(r.state, arnOf);
  }

  // ---------------------------------------------------------------------------
  // The notification object
  // ---------------------------------------------------------------------------

  class SnsNotification {
    var isFifo: bool
    var topic: string
    var message: string
    var subject: string
    var recipients: Any
    var body: Any
    var notificationType: string
    var typeId: string
    var messageGroupId: string
    var isServiceToService: bool
    var extraAttributes: AttributeMap

    /** The notification's fields, as a value. */
    function Snapshot(): Record
      reads this
    {
      Record(isFifo, topic, message, subject, recipients, body, notificationType, typeId,
             messageGroupId, isServiceToService, extraAttributes)
    }

    /** A struct literal with the given fields. */
    constructor (r: Record)
      ensures Snapshot() == r
    {
      isFifo, topic, message, subject := r.isFifo, r.topic, r.message, r.subject;
      recipients, body := r.recipients, r.body;
      notificationType, typeId, messageGroupId := r.notificationType, r.typeId, r.messageGroupId;
      isServiceToService, extraAttributes := r.isServiceToService, r.extraAttributes;
    }

    /** `parseBody`: overwrites Body with its JSON form; a nil Body and a failed marshal leave it as it was. */
    method ParseBody(marshal: Marshaller) returns (err: Option<string>)
      modifies this`body
      ensures var p := ParsedBody(old(body), marshal);
        if p.Success? then body == p.value && err == None
        else body == old(body) && err == Some(p.error)
    {
      if body == Nil {
        return None;
      }
      match marshal(body)
      case Failure(e) =>
        err := Some(e);
      case Success(b) =>
        body := Json(b);
        err := None;
    }

    /** `parseRecipients`: overwrites Recipients with their JSON form, or fails and leaves them. */
    method ParseRecipients(marshal: Marshaller) returns (err: Option<Error>)
      modifies this`recipients
      ensures var p := ParsedRecipients(old(recipients), marshal);
        if p.Success? then recipients == p.value && err == None
        else recipients == old(recipients) && err == Some(p.error)
    {
      if recipients == Nil {
        return Some(RecipientRequired);
      }
      match marshal(recipients)
      case Failure(e) =>
        err := Some(MarshalFailed(e));
      case Success(b) =>
        recipients := Json(b);
        err := None;
    }

    /**
     * `validateMessageSize`: adds up the byte lengths of the message, the
     * subject, the type and type ID, the payload fields already in JSON form
     * and every extra attribute's key and string value, and rejects a total
     * above 256 KiB. A nil extra attribute is dereferenced, which panics.
     */
    method ValidateMessageSize() returns (err: Option<Error>)
      ensures err == SizeCheck(Snapshot())
    {
      var f := Snapshot();
      var bodySize, recipientsSize := 0, 0;
      if f.body != Nil && f.body.Json? {
        bodySize := Len(f.body.doc);
      }
      if f.recipients != Nil && f.recipients.Json? {
        recipientsSize := Len(f.recipients.doc);
      }
      assert bodySize == JsonLen(f.body) && recipientsSize == JsonLen(f.recipients);
      var attributeSize := Len(f.notificationType) + Len(f.typeId) + bodySize + recipientsSize;
      var extraSize, panics := AttributesSize(f.extraAttributes);
      if panics {
        return Some(NilAttributePanic);
      }
      attributeSize := attributeSize + extraSize;
      var msgSize := Len(f.message) + Len(f.subject) + attributeSize;
      assert msgSize == MessageSize(f);
      if msgSize > MaxSnsMessageSize {
        return Some(TooLarge(msgSize));
      }
      return None;
    }

    /** `validate`: the guards, then the in-place serialisations, then the size check. */
    method Validate(marshal: Marshaller) returns (err: Option<Error>)
      modifies this
      ensures Validation(Snapshot(), err) == Validated(old(Snapshot()), marshal)
    {
      if topic == "" {
        return Some(TopicRequired);
      }
      if message == "" {
        return Some(MessageRequired);
      }
      if isFifo && typeId == "" && messageGroupId == "" {
        return Some(FifoRequiresId);
      }
      if !isServiceToService {
        err := ParseRecipients(marshal);
        if err.Some? {
          return err;
        }
      }
      var bodyErr := ParseBody(marshal);
      if bodyErr.Some? {
        return Some(InvalidJsonBody(bodyErr.value));
      }
      err := ValidateMessageSize();
    }

    /** `getTopic`: the topic's ARN, as the (external) ARN resolver gives it; `build` publishes to it. */
    function GetTopic(arnOf: string -> string): (arn: string)
      reads this
      ensures arn == BuildInput(Snapshot(), arnOf).topicArn
    {
      arnOf(topic)
    }

    /**
     * `build`: the publish request. Derived attributes are added one by one,
     * then every extra attribute is copied over them in map order.
     */
    method Build(arnOf: string -> string) returns (input: PublishInput)
      ensures input == BuildInput(Snapshot(), arnOf)
    {
      var f := Snapshot();
      var attributes: AttributeMap := map[];
      var subjectPtr: Option<string> := None;
      var dedupPtr: Option<string> := None;
      var groupPtr: Option<string> := None;
      if f.subject != "" {
        subjectPtr := Some(f.subject);
      }
      assert subjectPtr == BuildInput(f, arnOf).subject;
      if f.notificationType != "" {
        attributes := attributes["type" := Attribute("String", f.notificationType)];
      }
      if f.typeId != "" {
        if f.isFifo {
          dedupPtr := Some(f.typeId);
          if f.messageGroupId != "" {
            groupPtr := Some(f.messageGroupId);
          }
        }
        attributes := attributes["typeId" := Attribute("String", f.typeId)];
      }
      assert attributes == TypeAttributes(f);
      assert dedupPtr == BuildInput(f, arnOf).deduplicationId && groupPtr == BuildInput(f, arnOf).groupId;
      if f.recipients.Json? {
        attributes := attributes["recipients" := Attribute("String", f.recipients.doc)];
      }
      if f.body.Json? {
        attributes := attributes["body" := Attribute("String", f.body.doc)];
      }
      assert attributes == BaseAttributes(f);
      attributes := CopyAttributes(attributes, f.extraAttributes);
      input := PublishInput(GetTopic(arnOf), f.message, subjectPtr, dedupPtr, groupPtr,
                            if attributes == map[] then None else Some(attributes));
    }
  }
}
