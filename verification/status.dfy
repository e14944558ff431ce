/** The mapping from the telephony provider's Turkish result text to the
    CRM's call status (`mapCallStatus`, identical in src/hubspot-api.ts and
    src/hubspot-api.client.ts). */
module Status {

  /** The CRM's call status enumeration. */
  datatype CrmStatus = Canceled | Completed | Busy | NoAnswer | Failed | Queued | Ringing | Hold

  /** The status as the CRM property value spells it. */
  function StatusName(s: CrmStatus): string {
    match s
    case Canceled => "CANCELED"
    case Completed => "COMPLETED"
    case Busy => "BUSY"
    case NoAnswer => "NO_ANSWER"
    case Failed => "FAILED"
    case Queued => "QUEUED"
    case Ringing => "RINGING"
    case Hold => "HOLD"
  }

  /** The source's `statusMap` literal: its own keys and their values. */
  const StatusTable: map<string, CrmStatus> := map[
    "Vazgeçildi" := Canceled,
    "Başarılı" := Completed,
    "Meşgul" := Busy,
    "Cevapsız" := NoAnswer,
    "Reddedildi" := Failed,
    "Başarısız" := Failed,
    "Kuyrukta" := Queued,
    "Çalıyor" := Ringing,
    "Beklemede" := Hold
  ]

  /** The status mapping as intended: a table lookup with COMPLETED for
      every text the table does not list. Each status is reached from
      exactly the texts named here. */
  function MapCallStatus(text: string): (r: CrmStatus)
    ensures r == Canceled <==> text == "Vazgeçildi"
    ensures r == Busy <==> text == "Meşgul"
    ensures r == NoAnswer <==> text == "Cevapsız"
    ensures r == Failed <==> text == "Reddedildi" || text == "Başarısız"
    ensures r == Queued <==> text == "Kuyrukta"
    ensures r == Ringing <==> text == "Çalıyor"
    ensures r == Hold <==> text == "Beklemede"
    ensures r == Completed <==> text == "Başarılı" || text !in StatusTable
  {
    if text in StatusTable then StatusTable[text] else Completed
  }

  /** "Cevaplandı" (answered) is not in the table and maps to COMPLETED. */
  lemma AnsweredIsCompleted()
    ensures MapCallStatus("Cevaplandı") == Completed
  {
  }

  /** A JavaScript value as far as `statusMap[text]` can produce one. */
  datatype JsValue = JsString(s: string) | JsFunction(name: string) | JsObject

  /** The methods every object literal inherits from `Object.prototype`. */
  const PrototypeMethods: set<string> := {
    "constructor", "hasOwnProperty", "isPrototypeOf", "propertyIsEnumerable",
    "toLocaleString", "toString", "valueOf", "__defineGetter__",
    "__defineSetter__", "__lookupGetter__", "__lookupSetter__"
  }

  /** `statusMap[text] || "COMPLETED"` as written: the indexing also finds
      inherited members, which are truthy and so are returned instead of
      the default. */
  function MapCallStatusAsWritten(text: string): (r: JsValue)
    ensures text !in PrototypeMethods && text != "__proto__" ==> r == JsString(StatusName(MapCallStatus(text)))
    ensures text in PrototypeMethods ==> r == JsFunction(text)
  {
    if text in StatusTable then JsString(StatusName(StatusTable[text]))
    else if text in PrototypeMethods then JsFunction(text)
    else if text == "__proto__" then JsObject
    else JsString("COMPLETED")
  }

  /** The discrepancy: for the text "toString" the as-written lookup yields
      the inherited method, not a status, while the intended mapping gives
      COMPLETED. */
  lemma AsWrittenLeaksPrototype()
    ensures MapCallStatusAsWritten("toString") == JsFunction("toString")
    ensures MapCallStatusAsWritten("__proto__") == JsObject
    ensures MapCallStatus("toString") == Completed
  {
  }
}
