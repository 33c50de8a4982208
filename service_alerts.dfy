/**
 * `ServiceAlertNotification` (service-alerts-notification.go): turns a
 * service alert into SNS message attributes and publishes them, with the
 * fixed message text "Service alert", to the alert's topic.
 */
module ServiceAlerts {
  import opened Wrappers
  import opened GoValues
  import opened SnsCommon

  /** `ServiceAlert`; `data` is an `interface{}` value. */
  datatype ServiceAlert = ServiceAlert(
    userId: string,
    carId: string,
    fallbackDetail: string,
    detail: string,
    title: string,
    data: Any,
    topicName: string,
    service: string)

  /** The arguments of the external `PublishMessageToSNS` call. */
  datatype PublishCall = PublishCall(topicName: string, message: string, attributes: AttributeMap)

  const AlertMessage: string := "Service alert"

  /** The keys every alert carries. */
  const FixedKeys: set<string> := {"Service", "Detail", "Title", "FallbackDetail", "Data"}

  /**
   * The text of the "Data" attribute: empty for a nil value; otherwise the
   * JSON encoding, and empty again when encoding fails, since the error is
   * dropped and `json.Marshal` then returns no bytes.
   */
  function AlertData(data: Any, marshal: Marshaller): string
  {
    if data == Nil then ""
    else match marshal(data)
      case Success(encoded) => encoded
      case Failure(_) => ""
  }

  /** Every value is set and has DataType "String". */
  ghost predicate AllStringValued(m: AttributeMap)
  {
    forall k :: k in m ==> m[k].Some? && m[k].value.dataType == Some("String")
  }

  /** The attribute map of an alert: the five fixed entries, then "CarID" and "UserID" when set. */
  function AlertAttributes(alert: ServiceAlert, marshal: Marshaller): AttributeMap
  {
    var fixed := map[
      "Service" := Attribute("String", alert.service),
      "Detail" := Attribute("String", alert.detail),
      "Title" := Attribute("String", alert.title),
      "FallbackDetail" := Attribute("String", alert.fallbackDetail),
      "Data" := Attribute("String", AlertData(alert.data, marshal))];
    var withCar := if alert.carId != "" then fixed["CarID" := Attribute("String", alert.carId)] else fixed;
    if alert.userId != "" then withCar["UserID" := Attribute("String", alert.userId)] else withCar
  }

  /** The five fixed keys are always present; "CarID" and "UserID" exactly when those IDs are non-empty; no other key. */
  lemma AlertAttributeKeys(alert: ServiceAlert, marshal: Marshaller)
    ensures AlertAttributes(alert, marshal).Keys
      == FixedKeys + (if alert.carId != "" then {"CarID"} else {}) + (if alert.userId != "" then {"UserID"} else {})
    ensures "CarID" in AlertAttributes(alert, marshal) <==> alert.carId != ""
    ensures "UserID" in AlertAttributes(alert, marshal) <==> alert.userId != ""
  {
  }

  /** Every entry is a "String" attribute holding the matching field of the alert. */
  lemma AlertAttributeValues(alert: ServiceAlert, marshal: Marshaller)
    ensures var m := AlertAttributes(alert, marshal);
      && AllStringValued(m)
      && FixedKeys <= m.Keys
      && m["Service"] == Attribute("String", alert.service)
      && m["Detail"] == Attribute("String", alert.detail)
      && m["Title"] == Attribute("String", alert.title)
      && m["FallbackDetail"] == Attribute("String", alert.fallbackDetail)
      && m["Data"] == Attribute("String", AlertData(alert.data, marshal))
      && (alert.carId != "" ==> "CarID" in m && m["CarID"] == Attribute("String", alert.carId))
      && (alert.userId != "" ==> "UserID" in m && m["UserID"] == Attribute("String", alert.userId))
  {
  }

  /**
   * The published "Data" text is empty exactly when there is no data, its
   * encoding fails (the error is dropped), or it encodes to nothing; whenever
   * the encoding succeeds it is that encoding.
   */
  lemma PublishedData(alert: ServiceAlert, marshal: Marshaller)
    ensures var m := AlertAttributes(alert, marshal);
      && "Data" in m && m["Data"].Some?
      && (m["Data"].value.stringValue == Some("") <==>
            alert.data == Nil || marshal(alert.data).Failure? || marshal(alert.data) == Success(""))
      && (alert.data != Nil && marshal(alert.data).Success? ==>
            m["Data"].value.stringValue == Some(marshal(alert.data).value))
  {
  }

  /**
   * `ServiceAlertNotification`: encodes the data, builds the fixed entries,
   * adds the optional IDs, and publishes the map with the message
   * "Service alert" to the alert's topic, returning the publish error as is.
   */
  method ServiceAlertNotification(alert: ServiceAlert, marshal: Marshaller, publish: PublishCall -> Option<string>)
    returns (call: PublishCall, err: Option<string>)
    ensures call == PublishCall(alert.topicName, AlertMessage, AlertAttributes(alert, marshal))
    ensures err == publish(call)
  {
    var data := "";
    if alert.data != Nil {
      var encoded := marshal(alert.data);
      data := if encoded.Success? then encoded.value else "";
    }
    var msgData: AttributeMap := map[
      "Service" := Attribute("String", alert.service),
      "Detail" := Attribute("String", alert.detail),
      "Title" := Attribute("String", alert.title),
      "FallbackDetail" := Attribute("String", alert.fallbackDetail),
      "Data" := Attribute("String", data)];
    if alert.carId != "" {
      msgData := msgData["CarID" := Attribute("String", alert.carId)];
    }
    if alert.userId != "" {
      msgData := msgData["UserID" := Attribute("String", alert.userId)];
    }
    call := PublishCall(alert.topicName, AlertMessage, msgData);
    err := publish(call);
  }
}
