/** The alert feed (client/src/components/AlertFeed.jsx): one list item per
    alert, styled by the alert's type. */
module AlertFeed {
  import opened Base

  /** The props of one alert; `alertType` is `None` when the record has no
      string `type`. */
  datatype Alert = Alert(alertType: Option<string>, message: string)

  datatype Icon = AlertTriangle | InfoIcon | ShieldCheck

  datatype Details = Details(icon: Icon, iconClass: string, borderColor: string)

  const CriticalDetails: Details := Details(AlertTriangle, "text-red-400", "border-red-400")
  const WarningDetails: Details := Details(InfoIcon, "text-amber-400", "border-amber-400")
  const InfoDetails: Details := Details(ShieldCheck, "text-cyan-400", "border-cyan-400")

  /** The types the feed styles by name. */
  predicate Recognised(alertType: Option<string>)
  {
    alertType == Some("critical") || alertType == Some("warning") || alertType == Some("info")
  }

  /** `getAlertDetails`: critical and warning have their own style; "info",
      any other type and a missing type share the info style. */
  function AlertDetails(alertType: Option<string>): (d: Details)
    ensures d == CriticalDetails <==> alertType == Some("critical")
    ensures d == WarningDetails <==> alertType == Some("warning")
    ensures d == InfoDetails <==> alertType != Some("critical") && alertType != Some("warning")
  {
    if alertType == Some("critical") then CriticalDetails
    else if alertType == Some("warning") then WarningDetails
    else InfoDetails
  }

  /** The three styles differ in icon and in border colour. */
  lemma DetailsDistinct()
    ensures CriticalDetails.borderColor != WarningDetails.borderColor
    ensures CriticalDetails.borderColor != InfoDetails.borderColor
    ensures WarningDetails.borderColor != InfoDetails.borderColor
    ensures CriticalDetails.icon != WarningDetails.icon && WarningDetails.icon != InfoDetails.icon
    ensures InfoDetails.icon != CriticalDetails.icon
  {
  }

  /** An unrecognised or missing type is styled exactly like "info". */
  lemma FallbackIsInfo(alertType: Option<string>)
    requires !Recognised(alertType)
    ensures AlertDetails(alertType) == AlertDetails(Some("info"))
  {
  }

  /** One `<li>`: keyed by position, bordered and iconed by type, showing the
      message as given. */
  datatype Item = Item(key: nat, details: Details, message: string)

  /** `alerts.map((alert, index) => ...)`. */
  function Items(alerts: seq<Alert>): (items: seq<Item>)
    ensures |items| == |alerts|
    ensures forall i :: 0 <= i < |items| ==>
      items[i].key == i && items[i].message == alerts[i].message
      && items[i].details == AlertDetails(alerts[i].alertType)
  {
    seq(|alerts|, i requires 0 <= i < |alerts| => Item(i, AlertDetails(alerts[i].alertType), alerts[i].message))
  }
}
