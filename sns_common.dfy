/**
 * What the two notification variants share: the SNS publish request they
 * build, the errors their validation returns, and the two payload
 * serialisation steps (`parseBody`, `parseRecipients`), which are written
 * identically in both variants.
 */
module SnsCommon {
  import opened Wrappers
  import opened GoValues

  /** `sns.MessageAttributeValue`: `DataType` and `StringValue` are string pointers. */
  datatype AttributeValue = AttributeValue(dataType: Option<string>, stringValue: Option<string>)

  /** A message-attribute map; its values are pointers, so a value may be nil (`None`). */
  type AttributeMap = map<string, Option<AttributeValue>>

  /** A non-nil attribute with both pointers set, the only kind the code itself creates. */
  function Attribute(dataType: string, value: string): Option<AttributeValue>
  {
    Some(AttributeValue(Some(dataType), Some(value)))
  }

  /**
   * The fields of `sns.PublishInput` that the notifications fill in. A field
   * left unset (a nil pointer, a nil map) is `None`.
   */
  datatype PublishInput = PublishInput(
    topicArn: string,
    message: string,
    subject: Option<string>,
    deduplicationId: Option<string>,
    groupId: Option<string>,
    attributes: Option<AttributeMap>)

  /** The attribute stored under `key` in a publish request, if there is one. */
  function AttributeAt(input: PublishInput, key: string): Option<Option<AttributeValue>>
  {
    if input.attributes.Some? && key in input.attributes.value then Some(input.attributes.value[key]) else None
  }

  /** The errors a notification's `validate` reports, and the runtime panics it can hit. */
  datatype Error =
    | TopicRequired                  // "topic is required"
    | MessageRequired                // "message is required"
    | FifoRequiresId                 // "FIFO topics require either TypeID or MessageGroupID"
    | RecipientRequired              // "at least one recipient is required"
    | MarshalFailed(cause: string)   // the error of json.Marshal, returned unchanged
    | InvalidJsonBody(cause: string) // "invalid JSON body: <cause>"
    | TooLarge(size: nat)            // "notification exceeds maximum SNS message size of 262144 bytes (current: <size>)"
    | OverSizeLimit                  // "notification exceeds maximum SNS message size of 262144 bytes"
    | NilAttributePanic              // panic: nil pointer dereference of an attribute value
    | BodyNotJsonPanic               // panic: failed type assertion of Body to datatypes.JSON

  /**
   * `parseBody`: a nil Body stays nil; any other Body is replaced by its JSON
   * serialisation; a serialisation error is reported as the marshaller's
   * message.
   */
  function ParsedBody(body: Any, marshal: Marshaller): (r: Result<Any, string>)
    ensures r.Failure? <==> body != Nil && marshal(body).Failure?
    ensures r.Failure? ==> r.error == marshal(body).error
    ensures r.Success? ==> (r.value == Nil <==> body == Nil) && (r.value == Nil || r.value.Json?)
    ensures r.Success? && body != Nil ==> r.value == Json(marshal(body).value)
  {
    if body == Nil then Success(Nil)
    else match marshal(body)
      case Failure(e) => Failure(e)
      case Success(b) => Success(Json(b))
  }

  /**
   * `parseRecipients`: nil Recipients are an error; otherwise they are
   * replaced by their JSON serialisation, or the marshaller's error is
   * returned as is.
   */
  function ParsedRecipients(recipients: Any, marshal: Marshaller): (r: Result<Any, Error>)
    ensures r.Success? ==> r.value.Json?
    ensures r == Failure(RecipientRequired) <==> recipients == Nil
    ensures r.Failure? <==> recipients == Nil || marshal(recipients).Failure?
    ensures recipients != Nil && marshal(recipients).Success? ==> r == Success(Json(marshal(recipients).value))
    ensures recipients != Nil && marshal(recipients).Failure? ==> r == Failure(MarshalFailed(marshal(recipients).error))
  {
    if recipients == Nil then Failure(RecipientRequired)
    else match marshal(recipients)
      case Failure(e) => Failure(MarshalFailed(e))
      case Success(b) => Success(Json(b))
  }
}
